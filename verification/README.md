# x402 Base Evidence: a verified model

This project models the behaviour of x402 Base Evidence in Dafny 4.11 and proves properties of that model.
`dafny verify dfyconfig.toml` checks all of it. The program takes payments for an HTTP resource over the x402
protocol, records what it observed of each payment as signed evidence, and verifies such evidence offline.

## What is modelled

**The payment-identifier protocol** (`Lifecycle`, `Operations`, `Protocol`, `ProtocolInvariant`, `ProtocolSafety`,
`ProtocolOutcomes`, `ProtocolAnswers`, `ProtocolProgress`, `ProtocolNecessity`, `ProtocolRecords`,
`ProtocolObservations`, `Server`, `Facilitator`).
Requests share one map from payment identifiers to pending, completed, rejected or uncertain operations. What the
program runs between two awaits is one step: a turn of the read loop, a hook of the payment middleware, the handler,
an answer of the facilitator, or a response event. `Protocol` gives these steps over any number of requests;
`Server` holds the same stretches of code as methods that update the map, the request state and the recorder in
place, and proves that each is exactly its step. The store relies on three things, each a named predicate: that the
payment middleware stops for a request whose response has ended (`StopsWhenEnded`), that it refuses an identifier
without an authorization (`RefusesUnbound`), both for safety; and, for progress, that a request which claims is still
connected when its listeners are registered (`OwnersAreHeard`). `ProtocolNecessity` shows by a run for each that none
can be dropped. Progress is stated without fairness: runs are finite, and a run in which nothing can happen but
clients hanging up has answered everyone who does not wait on an owner that is no longer heard. `ProtocolAnswers` says
what a request is told by the history of the run alone: who claimed its identifier and how each attempt ended.

**Strict JSON and the canonical form** (`CodeUnits`, `Numerals`, `Json`, `Grammar`, `Scanning`, `ScanSoundness`,
`ScanCompleteness`, `ScanBlame`, `StrictJson`, `JcsStrings`, `Jcs`, `JcsPrinting`, `JcsCanonical`, `Denotation`,
`Stringify`, `JsonObjects`). Text is a sequence of 16-bit code units. `Grammar` is the language, as syntax trees that print
themselves (sections 2 to 7 of RFC 8259, with numbers and literals left as opaque runs, and the unique names of
section 2.3 of RFC 7493). `Scanning` is what the scanner computes; `StrictJson` is the scanner itself, a cursor and
a path updated in place. The printer follows RFC 8785, sections 3.2.2.2 and 3.2.3. `Denotation` says what a tree of
the grammar means as a JSON value, and holds both printers to it.

**Observation** (`Transfers`, `Observation`, `RpcAdmission`, `Polling`): reading token transfers out of receipt
logs, establishing inclusion in a sealed block, the verdicts, admitting an endpoint's answers, and the bounded loop
that waits for a sealed observation.

**Evidence** (`Documents`, `BindingIdentity`, `Presence`, `Evidence`, `Verifier`, `EvidenceUnique`,
`EvidenceMeaning`, `Acceptance`, `Issuance`, `IssuedContents`, `IssueThenVerify`, `EvidenceRuns`): the sidecar
documents, the verifier with its checks in order and its early returns, what its acceptance amounts to, why an accepted
directory has only one possible content, and why honest evidence is accepted. `Acceptance` says what an accepted
directory states, and `IssuedContents` what an issued one does, in the names a reader of the documents finds. `EvidenceRuns` ties this to the protocol: over every
interleaving it says exactly which finished requests leave evidence that fits the contract.

**Canonical components and bounded admission** (`Components`, `X402Header`, `BoundedRead`): the request components
of section 2.2 of RFC 9421, the staged capture of a payment field, and the read loops against a source that answers
as it likes.

## How it is put together

Code that works step by step is a method or a class with loops and invariants, proved against a function or a
predicate on values; the properties are lemmas about those. Code made of expressions is functions. An exception is
`None`, a `Threw` or an `Aborted` result. What the program gets from elsewhere is a parameter: `Runtime` (hash,
UTF-8, `JSON.parse`, the record primitive, the schemas), `Validators` (base64, decoders, upstream schemas), `IsIp`,
the endpoint's answers and the clock. What is relied on of them is a named predicate: `Faithful` (digests and
encodings tell their inputs apart, parsed objects have no repeated member), `Reliable` (the documents issued can be
parsed back from what is written, and the record signed verifies; nothing is assumed of any other document or record),
`Sound` (address parsing ignores case and admits no delimiter), `Steady` (the clock never goes back, and a sleep lasts
at least its length).

Five statements one might expect of the code are not true of it as they stand, and are proved in the exact form
that is:

- A retry after a successful settlement is served the cached result exactly when the success had been reported by the
  time the first response ended. A client that hangs up while it is being settled, and asks again, is told that the
  outcome is unknown (`ProtocolAnswers.RetryIsServedExactly`, `ProtocolNecessity.LateReportIsNotServed`).
- The absolute form of canonical components parses back to them exactly when the path holds no question mark.
  Capture never puts one there, but the assertion on hand-built components lets it through
  (`Components.AbsoluteUriRoundTrip`, `Components.QuestionMarkInPathIsLost`).
- A paid request leaves evidence that fits the presence contract exactly when its outcome was reported. A handler
  that throws leaves no result where the contract of its terminal state requires one
  (`EvidenceRuns.FinishFitsContract`, `EvidenceRuns.ThrownHandlerFitsNothing`).
- The identity of an authorization tells a pair of authorizer and nonce apart from all others exactly when neither
  holds a colon, as hexadecimal text never does; just for those pairs does the consumed set say which succeeded
  (`Facilitator.IdentityNamesThePair`, `Facilitator.ConsumedExactlyForPlainPairs`).
- The comment on the capture of a payment field says that it never throws for a malformed payload. It throws exactly
  when the value is no field value, as the comment goes on to say, or when nothing refuses the value and its object
  has no canonical form, as for an escaped lone surrogate (`X402Header.CaptureObserved`,
  `X402Header.LoneSurrogateThrows`). The canonical form there is that of the independent printer,
  src/jcs-independent.ts, which follows the same section of RFC 8785 as the digest package the program calls.

## Model

| member | source | states |
|---|---|---|
| `ProtocolInvariant.RunKeeps` | src/flow/server.ts:503-605 | in every state of every interleaving the shared invariant holds: each request is coherent with its recorder, each claim with the map, each entry is backed by a request that made it, and no two requests that may still settle share an identifier |
| `ProtocolSafety.AtMostOneCommitted` | src/flow/server.ts:503-605 | under one payment identifier at most one settlement ends in success or raised with its outcome unknown, in any state of any run |
| `ProtocolSafety.NoSecondCommit` | src/flow/server.ts:611-670 | the same across time: once one request has committed a settlement no other request under its identifier ever does |
| `ProtocolSafety.OneOpenOwner` | src/flow/server.ts:504-528 | an identifier is pending exactly while one request that claimed it has not concluded, and the pending entry is that request's own |
| `ProtocolSafety.RejectedIsSafeToRetry` | src/flow/server.ts:576-594 | a released identifier may be retried: nothing under it has committed and nothing that claimed it earlier still can |
| `ProtocolSafety.UncertainOnlyAfterSubmission` | src/flow/server.ts:595-604 | an identifier is refused for good only after an attempt with that fingerprint and authorization entered settlement |
| `ProtocolSafety.CachedOnlyForTheSettled` | src/flow/server.ts:554-574 | a cached result goes only to a request with the identifier, fingerprint and normalized authorization of the one request whose settlement succeeded, and is exactly the body and content type that request's handler produced under the status and payment response its response concluded with |
| `ProtocolSafety.StoreEvolves` | src/flow/server.ts:504-536 | over any stretch of a run identifiers only accumulate, fingerprints never change, completed and uncertain are absorbing, and the map never exceeds its capacity |
| `ProtocolAnswers.EveryAnswerIsExact` | src/flow/server.ts:503-605 | in every run a request that reads the map ends up in one place, and it is the one that what happened to earlier requests under its identifier calls for: refused when one was for another request; made to wait on the one still open, or served what the one that ended in success produced, both only for the same authorization and refused otherwise; told that the outcome is unknown when one ended with its settlement unanswered, unreported or raised; let through to claim when every one was released, or when there was none and there is room |
| `ProtocolAnswers.RetryIsServedExactly` | src/flow/server.ts:554-574 | a retry with the identifier, fingerprint and authorization of a request whose settlement committed and whose response has ended is served that request's result exactly when the success had been reported by then; otherwise it is told that the outcome is unknown |
| `ProtocolAnswers.ClaimsFindNobody` | src/flow/server.ts:576-594 | whoever is let through to claim finds nobody who could still settle under the identifier |
| `ProtocolOutcomes.ConclusionIsExact` | src/flow/server.ts:618-670 | whichever response event comes first, what the recorder alone leads to is what really happened: completed with the produced result exactly when success was reported, uncertain exactly when settlement was entered and not answered or raised, rejected otherwise; and the waiters are woken |
| `ProtocolInvariant.ConclusionIsHonest` | src/flow/server.ts:624-662 | the state derived from the recorder never releases an attempt that may have settled, never caches a result nobody produced, and never blames settlement on an attempt that did not reach it |
| `ProtocolInvariant.NoneMaySettle` | src/flow/server.ts:576-594 | nobody can still settle under an identifier that is absent or released |
| `ProtocolProgress.WaitersAreNotStuck` | src/flow/server.ts:538-553 | a waiting request waits on a promise already resolved, or on the one open owner of its own identifier, which holds the pending entry |
| `ProtocolProgress.StepDecreases` | src/flow/server.ts:502-605 | every step of every request strictly decreases a lexicographic measure, re-reading the map after a wake-up included |
| `ProtocolProgress.RunsAreBounded` | src/flow/server.ts:502-605 | n requests take at most 12 n (n + 1) steps however they interleave |
| `ProtocolProgress.OnlyUnheardOwnersStrand` | src/flow/server.ts:538-553 | once nothing can happen but clients hanging up, a request is left unanswered exactly if it waits on an owner whose response had ended before its listeners were registered |
| `ProtocolProgress.FinishedRunsAnswerEveryone` | src/flow/server.ts:714-719 | where every request that claims is still connected when its listeners are registered, a run that cannot go on has answered everyone |
| `ProtocolProgress.OnlyOpenOwnersHoldOthersUp` | src/flow/server.ts:538-553 | once every owner has concluded, every request still entering or waiting can take its own next step |
| `ProtocolNecessity.ClosedThenSettledCommitsTwice` | src/flow/server.ts:657-661 | a concrete run showing why a request that closed before its resource ran must not go on to settle: without that, two settlements commit under one identifier |
| `ProtocolNecessity.UnboundSettledCommitsTwice` | src/flow/server.ts:499-502 | a concrete run showing why a payload with an identifier and no well-formed authorization must not be settled downstream |
| `ProtocolNecessity.UnheardOwnerStrandsAWaiter` | src/flow/server.ts:538-553 | a concrete run showing why: a client hangs up while its request waits, the request then claims with nothing left to conclude it, and the next one waits for ever |
| `ProtocolNecessity.LateReportIsNotServed` | src/flow/server.ts:657-661 | a concrete run in which a settlement succeeds after its response closed: the very same request again is told that the outcome is unknown, and is not served what was produced |
| `Operations.SameAuthorizationMeans` | src/flow/server.ts:157-209 | two well-formed payloads present one authorization exactly when their hexadecimal members agree up to case and their decimal members agree as written |
| `Operations.PresentedWhen` | src/flow/server.ts:157-209 | a payload presents an authorization exactly when its six members and its signature are there as text, the signature not empty |
| `Server.OperationStore.Read` | src/flow/server.ts:503-605 | one turn of the read loop on the shared map and the request's own fields is the specified turn: claim, wait, serve from cache or refuse |
| `Server.OperationStore.ConcludeOperation` | src/flow/server.ts:618-670 | guarded by the request's flag, the pending entry is replaced by what its recorder amounts to only while it is still this request's own, and its promise is resolved |
| `Server.OperationStore.OnFinish` | src/flow/server.ts:672-713 | finishing records, then concludes at most once |
| `Server.OperationStore.OnClose` | src/flow/server.ts:717-719 | closing concludes unless finishing already did |
| `Server.PaidResource.Perform` | src/flow/server.ts:503-605 | whatever the event loop runs next on the mutable objects, the whole resource takes exactly the step of the interleaving model |
| `Lifecycle.ObservationIsFaithful` | src/flow/lifecycle.ts:151-162 | an observation reports exactly the positions entered, each once and in lifecycle order, in whatever order and however often they were reported |
| `Lifecycle.PersistableFailureReason` | src/flow/failure-vocabulary.ts:84-88 | no remote text can be recorded as a raised settlement: that term comes only from the derived argument |
| `Lifecycle.OnlyListedCodesPersist` | src/flow/failure-vocabulary.ts:84-88 | a code on the allowlist is persisted as it stands; whatever else comes from upstream leaves only the derived term |
| `ProtocolRecords.RunsFit` | src/flow/server.ts:343-405 | in every reachable state the recorder and the produced result hold what the point the request reached says they hold |
| `ProtocolObservations.FinishIsObserved` | src/flow/server.ts:672-713 | in every interleaving a response that finishes leaves exactly the observation its own payment calls for: the positions it went through in order, its terminal state, the transaction of a reported success and of nothing else, and the reason of a failure |
| `ProtocolObservations.ReasonsAreAsReported` | src/flow/server.ts:343-405 | the reason recorded of a refused, raised or canceled payment is the one its own step gave, in the persisted terms, and nothing else changes it |
| `ProtocolObservations.PayerIsAsReported` | src/flow/server.ts:343-405 | the payer recorded is the one that verification or a successful settlement named last, and nothing else changes it |
| `Facilitator.EveryCallIsAccountable` | src/flow/fixture-facilitator.ts:173-226 | from a fresh facilitator, for every behaviour, calls and interleaving: an answered call raised exactly when told to; was declined with the reason it was told to give; otherwise succeeded exactly when the payment accepted every required term, carried a signed authorization, and no other call succeeded under that authorization; and one declined was another's duplicate or has the fault its reason names |
| `Facilitator.DecidesRightly` | src/flow/fixture-facilitator.ts:183-226 | for every consumed set, behaviour and call: a duplicate is told so, a forced outcome is given, and otherwise the call succeeds exactly on good terms, a refusal naming a term that does differ |
| `Facilitator.SettlesExactlyTheFirst` | src/flow/fixture-facilitator.ts:183-226 | unforced and on good terms, a call settles exactly when none naming its authorization settled before; a later one is declined as a duplicate |
| `Facilitator.EachPairSettlesOnce` | src/flow/fixture-facilitator.ts:173-226 | from a fresh facilitator, whatever calls it is given and however they interleave at their barrier, each pair of authorizer and nonce, case apart, succeeds at most once |
| `Facilitator.EachAuthorizationSettlesOnce` | src/flow/fixture-facilitator.ts:173-226 | every interleaving keeps the consumed set at exactly the identities that succeeded, none of them twice |
| `Facilitator.IdentityNamesThePair` | src/flow/fixture-facilitator.ts:107-115 | an identity belongs to one pair only, case apart, exactly when neither its authorizer nor its nonce holds a colon |
| `Facilitator.ConsumedExactlyForPlainPairs` | src/flow/fixture-facilitator.ts:107-115 | after every sequence of calls the consumed set tells exactly whether a pair succeeded, for just the pairs without a colon |
| `Facilitator.ColonPairConsumedForAnother` | src/flow/fixture-facilitator.ts:107-115 | for every pair with a colon, calls after which it is consumed though no payment naming it settled |
| `Facilitator.OnlySuccessConsumes` | src/flow/fixture-facilitator.ts:213-219 | a call that is refused or raises leaves every authorization spendable; a success consumes one new identity |
| `Facilitator.TermsAreChecked` | src/flow/fixture-facilitator.ts:77-98 | the terms pass exactly when all five accepted terms are the required ones and a signed authorization is there; each reason names a term that does differ |
| `Facilitator.FixtureExactEvmFacilitator.Verify` | src/flow/fixture-facilitator.ts:159-171 | verification counts its call, never consumes, and is valid exactly when nothing forces it otherwise and the payment is on good terms; the refusal reason is the forced one or names a fault that is there |
| `Facilitator.FixtureExactEvmFacilitator.SettleEnters` | src/flow/fixture-facilitator.ts:173-182 | a settlement call is counted before its barrier |
| `Facilitator.FixtureExactEvmFacilitator.SettleProceeds` | src/flow/fixture-facilitator.ts:183-226 | past the barrier the duplicate check, the forced outcomes, the terms and the consumption happen in one stretch, and the answer is the one called for: settled exactly when unforced, unconsumed and on good terms |
| `ScanCompleteness.ScanIsExact` | src/strict-json.ts:66-225 | the scanner accepts a text exactly when it is one value of the grammar, containers nest within the limit, and no object at any depth has two members of one decoded name |
| `ScanCompleteness.ReadsScanned` | src/strict-json.ts:66-225 | every admissible reading is the one the scanner recognises, to the end of the text |
| `ScanCompleteness.ScannedReads` | src/strict-json.ts:66-225 | whatever the scanner accepts prints back as the text it was given |
| `ScanCompleteness.OneReading` | src/strict-json.ts:66-225 | no text has two readings: two unambiguous values that print alike are the same value |
| `ScanSoundness.ValueSound` | src/strict-json.ts:86-104 | a value accepted at any position and depth spells the text it consumed, stays within the depth limit and is unambiguous |
| `ScanCompleteness.ValueComplete` | src/strict-json.ts:86-104 | an admissible value lying at any position is recognised there, whatever its surroundings |
| `ScanCompleteness.StringComplete` | src/strict-json.ts:174-225 | a quoted string is read back item by item and exactly, whatever follows it |
| `ScanBlame.RefusalIsThere` | src/strict-json.ts:106-166 | a duplicate-member refusal names a path that leads, through containers really there, to an object in which that name already occurred; a depth refusal leads to a container opened one level too deep |
| `StrictJson.Scanner.TakeString` | src/strict-json.ts:174-225 | the loop over escapes returns the decoded string and stops after its closing quote, or throws scan_incomplete |
| `StrictJson.Scanner.TakeValue` | src/strict-json.ts:86-104 | the cursor never leaves the text or goes back; a success ends where the grammar says and restores the path, a failure carries the code and the path in force |
| `StrictJson.Scanner.TakeFields` | src/strict-json.ts:114-138 | the loop over fields, its set of names seen and its path, is the recursive reading of the fields |
| `StrictJson.Scanner.TakeElements` | src/strict-json.ts:149-165 | the loop over elements is the recursive reading of the elements |
| `StrictJson.ScanForDuplicateMembers` | src/strict-json.ts:235-243 | never an exception; accepted exactly for an admissible text, and a refusal names a path that leads to what it blames |
| `StrictJson.ParseStrictJson` | src/strict-json.ts:287-297 | bytes become a value exactly when they decode, the text is admissible and the runtime parses it |
| `Denotation.CanonicalTextSaysTheValue` | src/jcs-independent.ts:92-120 | the canonical text is admitted by the scanner as a value without space, in the shortest escapes and with the names of every object strictly increasing, and what that value says, literal by literal and member by member, is the value given, up to the order of members and the sign of zero |
| `JcsCanonical.CanonicalFormIsExact` | src/jcs-independent.ts:92-120 | two values have one canonical form exactly when they are equal up to the order of members at any depth and the sign of zero |
| `JcsCanonical.Reordered` | src/jcs-independent.ts:110-119 | permuting the members of an object does not show in the canonical form |
| `JcsCanonical.CanonicalScansBack` | src/jcs-independent.ts:92-120 | the canonical text is accepted by the scanner exactly when the value nests within the limit, and then as the tree that was printed |
| `JcsCanonical.SortedNamesComeBack` | src/jcs-independent.ts:110-119 | the scanned canonical object has all of the value's member names, strictly increasing by code units |
| `JcsPrinting.CanonicalIsTree` | src/jcs-independent.ts:92-120 | the printer fails exactly where a number is not finite or a string or name holds a lone surrogate; otherwise its text is that of one tree of the grammar, of which `Denotation.CanonicalTextSaysTheValue` says what it denotes |
| `JcsPrinting.TreeDepth` | src/jcs-independent.ts:92-120 | printing keeps the nesting depth |
| `JcsPrinting.TreeUnambiguous` | src/jcs-independent.ts:110-119 | a value without repeated members prints as an unambiguous tree |
| `JcsPrinting.OneOrder` | src/jcs-independent.ts:110-119 | there is exactly one strictly increasing arrangement of given members |
| `JcsStrings.StringRoundTrip` | src/jcs-independent.ts:40-50 | scanning a printed string returns the string itself and stops right after the closing quote, whatever follows |
| `JcsStrings.SerializeString` | src/jcs-independent.ts:40-50 | the accumulator loop prints a well-formed string and refuses any other |
| `JcsStrings.AssertWellFormed` | src/jcs-independent.ts:26-38 | the index reported is that of the first lone surrogate; none when the string is well formed |
| `JcsStrings.ShortestEscape` | src/jcs-independent.ts:15-50 | no other way of writing a code unit is shorter than the printed one, and hexadecimal escapes are lower case |
| `Jcs.CompareCodeUnits` | src/jcs-independent.ts:66-73 | the sign of the result is the order of the two names by code units, zero exactly for equal names |
| `Jcs.BeforeTrichotomy` | src/jcs-independent.ts:66-73 | the order of names is total and strict |
| `Transfers.TransfersOnContract` | src/flow/observe-transaction.ts:183-213 | the loop over logs collects, in order, the transfers with exactly the event layout on the contract |
| `Transfers.MatchIsEncoding` | src/flow/observe-transaction.ts:183-236 | what is read from a log matches the expectation exactly when the log encodes it: contract, event topic, two padded address topics and one data word whose value is the canonical decimal amount |
| `Transfers.TopicEncodes` | src/flow/observe-transaction.ts:162-213 | the topic shape and the address sliced from it together say that the topic is that address padded to a word |
| `Transfers.AmountMatches` | src/flow/observe-transaction.ts:206-236 | comparing decimal text is comparing numbers, for canonical amounts and only for those |
| `Transfers.SelectTransfer` | src/flow/observe-transaction.ts:367-369 | the first matching transfer is recorded, else the first of all: selection never hides a match |
| `Observation.ObserveSealedTransaction` | src/flow/observe-transaction.ts:301-446 | never fails; state, reason, status, sender and recorded transfer are exactly what the answers call for, the first obstacle in query order naming the reason |
| `Observation.EstablishInclusion` | src/flow/observe-transaction.ts:379-424 | inclusion is recorded exactly when the receipt's and the transaction's placement, the sealed block asked for by number, its list of hashes and the head all agree |
| `Observation.MatchIffEncoded` | src/flow/observe-transaction.ts:183-236 | some transfer read from the logs matches exactly when some log encodes the expected one |
| `Observation.TransferVerdictIsExact` | src/flow/observe-settlement.ts:182-240 | transfer_event is a match exactly when some receipt log encodes the whole expected transfer, whichever was recorded; and then asset, recipient and amount match too |
| `Observation.OtherVerdictsAreExact` | src/flow/observe-settlement.ts:205-234 | asset is never a mismatch on an honest observation, since only the expected contract is read; recipient and amount speak of the recorded transfer; network of what was reported |
| `Observation.NoPayerNoMatch` | src/flow/observe-settlement.ts:189-203 | without an authorized payer to expect, a receipt is never a match |
| `RpcAdmission.AdmitReceiptResult` | src/flow/observe-transaction.ts:520-606 | a receipt is admitted exactly when every part of it has its shape, with all of its logs in order, or refused whole |
| `RpcAdmission.AdmitLog` | src/flow/observe-transaction.ts:548-603 | one malformed log makes the receipt unusable; an admitted one is read as it stands |
| `RpcAdmission.LogReads` | src/flow/observe-transaction.ts:548-603 | address, topics and data of an admitted log are each what stands under that name |
| `RpcAdmission.StatusReads` | src/flow/observe-transaction.ts:520-530 | 0x1 is a success, 0x0 a revert, and no other status is admitted |
| `RpcAdmission.AdmitSealedBlockResult` | src/flow/observe-transaction.ts:647-664 | a sealed block is admitted with every transaction hash it lists, or refused whole |
| `RpcAdmission.NumberRoundTrip` | src/flow/evm-json-rpc.ts:22-41 | every number is admitted back from the quantity text it is asked by |
| `RpcAdmission.QuantityRoundTrip` | src/flow/evm-json-rpc.ts:22-41 | every admitted quantity is, up to case, the text of the number it is admitted as: no second spelling |
| `Polling.ObserveUntilSealed` | src/flow/live-e2e.ts:180-238 | the last observation decides, every earlier one was transient, there is a first one at once and further ones only while a poll fits the deadline; the outcome is reverted, matched or wrong_transfer exactly as that observation says, and the time slept stays within the deadline |
| `Polling.RetriedExactly` | src/flow/live-e2e.ts:215-236 | an observation that could not be made is retried exactly when the first query that failed found the endpoint unreachable or temporarily unavailable; one that was made, until it is reverted or sealed |
| `Polling.RoundsAreBounded` | src/flow/live-e2e.ts:233-236 | at most deadline / poll + 1 observations are made |
| `Polling.NoIntervalNoDeadline` | src/flow/live-e2e.ts:190-236 | why the poll interval must be positive: at zero, a clock that stands still never reaches the deadline |
| `Polling.OutcomeMeans` | src/flow/live-e2e.ts:197-214 | a sealed outcome means the transaction is in a sealed block that lists it, and matched means that some log of its receipt encodes the transfer |
| `BoundedRead.ReadBoundedFile` | src/flow/safe-read.ts:185-209 | whatever the descriptor answers, the result is everything the file held up to its end, within the size it had, or a refusal; never a prefix |
| `BoundedRead.ReadBodyWithinBudget` | src/flow/evm-json-rpc.ts:140-171 | the whole body when it ends within the budget, a refusal as soon as it exceeds it, and a transport failure when the stream breaks first |
| `Components.AuthorityIsExact` | src/components.ts:66-125 | an authority is admitted exactly when it has no user part and is a bracketed IPv6 address or a registered name, an IPv4 address if digits and dots only, with no port or one from 1 to 65535 |
| `Components.CanonicalIsIdempotent` | src/components.ts:66-125 | canonicalizing an authority again changes nothing |
| `Components.CanonicalFormsAgree` | src/components.ts:66-125 | two authorities have one canonical form exactly when host, case apart, and effective port agree, an empty or default port being the scheme's own |
| `Components.CaptureNeverFailsItsAssertion` | src/components.ts:205-267 | every component object that capture builds passes the canonical-components assertion, and its path and query are the request target split at the first question mark |
| `Components.AbsoluteUriRoundTrip` | src/components.ts:276-297 | rebuilding the absolute form of canonical components and parsing it gives the same components exactly when the path holds no question mark |
| `Components.QuestionMarkInPathIsLost` | src/components.ts:145-197 | components the assertion lets through, built by hand with a question mark in the path, that do not survive the round trip |
| `X402Header.CaptureObserved` | src/x402-header.ts:370-547 | each stage is accepted exactly when it accepts the value and rejected exactly when it was tried and does not; at most one refuses and nothing later is looked at; a digest is there exactly when nothing refused; the diagnostics are those of the stage that refused, within the caps; and it throws exactly when the value is no field value at all, or nothing refuses it and the object has no canonical form |
| `X402Header.LoneSurrogateThrows` | src/x402-header.ts:541-546 | a document whose one member is half a surrogate pair, which nothing refuses and which has no canonical form |
| `X402Header.BoundDiagnostics` | src/x402-header.ts:337-346 | the reported diagnostics are the longest prefix within both caps |
| `X402Header.PromotionIsExact` | src/x402-header.ts:715-793 | a capture promotes to the type its name says, and to no other, exactly when nothing rejected it |
| `Presence.CheckPresence` | src/flow/presence.ts:135-152 | the violations are exactly the artifacts missing though required or there though forbidden, each with its expectation |
| `Presence.StateDeterminesArtifacts` | src/flow/presence.ts:44-116 | the terminal state determines the artifact set, but for the settlement field of a failed settlement |
| `BindingIdentity.OneDigestOneRequest` | src/binding.ts:105-173 | requests whose bindings have one digest have the same components, the same body bytes and the same observed-payment digest |
| `BindingIdentity.OneDigestOneResult` | src/binding.ts:150-173 | results whose bindings have one digest have the same status, content type and body bytes |
| `BindingIdentity.RequestBindingReads` | src/binding.ts:105-148 | each derived component and the body digest is found under its own name |
| `Documents.ObservedReads` | src/flow/observe-settlement.ts:316-332 | the observation document carries each part under its own name, absent exactly when the part is |
| `Stringify.DocumentsAreAdmitted` | src/flow/issue-record.ts:107-110 | a written document that nests within the limit is admitted by the strict scanner when read, and the text says exactly the document: the same members in the same order |
| `Verifier.VerifyEvidence` | src/flow/verify-evidence.ts:250-1383 | a report has no failed check exactly when the directory is readable, the record verifies under the key, every bound digest is that of a file that is there, no file goes unbound, the presence contract holds, the comparison is the recomputed one, and record, observation and files agree; and verification throws exactly when a digest is claimed for an admitted sidecar without a canonical form, or the comparison to recompute meets a member that is not text |
| `Verifier.CheckIntegrity` | src/flow/verify-evidence.ts:451-614 | all of the record's digests are recomputed, none short-circuited by another |
| `Verifier.CheckComparison` | src/flow/verify-evidence.ts:803-855 | the recorded comparison equals the one recomputed from the rest of the document |
| `Verifier.CheckDocument` | src/flow/verify-evidence.ts:638-971 | the checks inside the observation pass exactly when the whole document holds |
| `Acceptance.AcceptedObservation` | src/flow/verify-evidence.ts:638-971 | of every accepted directory, by the names a reader looks under: the record is a payment record; record and observation state one network, asset, amount and terminal state and name one settlement response; profile and scheme are these; a settlement is reported as succeeded exactly with a transaction, an RPC account is of that transaction and names the block it claims; and all six recorded verdicts are the ones the document gives |
| `Acceptance.AcceptedFiles` | src/flow/verify-evidence.ts:250-634 | of every accepted directory: everything could be read; the record verifies and a supplied key is an Ed25519 key with the record's identifier and issuer; each of six digests is there exactly with its file and is that file's, each document follows its schema; the body is the bound one; and the artifacts are those of the named terminal state, with the native ones agreeing |
| `Acceptance.FactsMeanVerdicts` | src/flow/verify-evidence.ts:803-855 | each recorded verdict reads match, mismatch or not_evaluated exactly by what the expectation, the report and the observed transfer hold under their names, a transfer matching only as a whole |
| `EvidenceUnique.AcceptedContentsAreUnique` | src/flow/verify-evidence.ts:451-634 | two directories accepted under one record's claims hold the same artifact set, equivalent sidecars, the same bytes in every native artifact and the same result body, given an injective hash |
| `EvidenceUnique.BoundDocuments` | src/flow/verify-evidence.ts:451-490 | two sidecars bound by one digest are absent together or equivalent |
| `EvidenceUnique.BoundBodies` | src/flow/verify-evidence.ts:589-614 | two bodies under equivalent result bindings are the same bytes |
| `EvidenceUnique.SameArtifacts` | src/flow/presence.ts:135-152 | the terminal state and the bound digests fix which artifacts there are |
| `EvidenceMeaning.AcceptedEvidenceHangsTogether` | src/flow/verify-evidence.ts:872-971 | in an accepted directory the record, the observation and the files name one terminal state, one settlement response and one result body, and what one omits all omit |
| `EvidenceMeaning.AcceptedMatchIsTheRecordedPayment` | src/flow/verify-evidence.ts:700-953 | a recorded match in accepted evidence is a transfer of the record's own amount of its own asset from the expected payer to the expected recipient, in the transaction of a settlement reported to have succeeded |
| `Issuance.IssueEvidence` | src/flow/issue-record.ts:136-222 | issuance succeeds exactly when the documents can be written and digested, and then the record binds the digests of exactly the files it sits beside |
| `IssuedContents.BuildEvidence` | src/flow/fixture-e2e.ts:292-421 | one run is issued whole or not at all; the record and the other files say what the run was, and so do the documents, each written to its file and bound by its digest |
| `IssuedContents.ObservationIsTheRuns` | src/flow/observe-settlement.ts:258-333 | by name, the observation states the run's own network, asset, amount, recipient and authorized payer, the outcome as succeeded, refused or not reached by the run's own conditions, the transaction and network of a success only, the RPC account as given, the verdicts these give, the terminal state and the digests |
| `IssuedContents.RecordIsTheRuns` | src/flow/issue-record.ts:136-222 | by name, the record states the run's amount, asset, network, states and terminal state, a settlement event only where the run was paid for, and the digest of each field value, each in its own file |
| `IssuedContents.RequestIsTheRuns` | src/flow/fixture-e2e.ts:352-375 | by name, the request binding states the observed components, the hash of the request body and, under payment-signature, the digest of the field the request carried, if any |
| `Issuance.TypedComparisonIsDefined` | src/flow/observe-settlement.ts:182-240 | the comparison of a document the writer builds never throws |
| `IssueThenVerify.IssuedEvidenceVerifies` | src/flow/fixture-e2e.ts:292-421 | the directory a run's evidence was written to is accepted, exactly unless its captured native artifacts disagree, provided the documents written can be parsed back and the record signed verifies |
| `IssueThenVerify.IssuedEvidenceIsConsistent` | src/flow/issue-record.ts:136-222 | under that proviso an issued record verifies, and every integrity, structure and consistency check on its files passes |
| `IssueThenVerify.RunDocumentHolds` | src/flow/observe-settlement.ts:258-333 | everything the verifier checks inside an observation holds of one a run produced |
| `IssueThenVerify.RunConforms` | src/flow/presence.ts:44-116 | the artifact set a run leaves is the one its terminal state calls for |
| `IssueThenVerify.RunComparison` | src/flow/observe-settlement.ts:182-240 | the verifier, reading the written document, recomputes the comparison the writer recorded |
| `EvidenceRuns.FinishFitsContract` | src/flow/server.ts:672-736 | over every interleaving, a paid request about to finish fits the presence contract exactly when its handler's result or its refusal was followed by a reported outcome |
| `EvidenceRuns.ThrownHandlerFitsNothing` | src/flow/server.ts:383-395 | a run that reaches the other case: the handler threw, its cancellation was reported, and the contract requires a result that is not there |
| `EvidenceRuns.ReportedRunsAreAnswered` | src/flow/fixture-e2e.ts:292-421 | a finished paid request leaves what issuance and verification need exactly when its outcome was reported |

## Left out

- ProtocolSafety.AtMostOneCommitted: holds for runs in which the middleware does not enter settlement for a request that has ended, or for an unclaimed identifier; both are explicit in `Protocol.IsRun`, and `ProtocolNecessity` shows that each is needed.
- ProtocolProgress.FinishedRunsAnswerEveryone: takes every owner to be heard; `ProtocolProgress.OnlyUnheardOwnersStrand` says without that exactly who is left waiting.
- EvidenceRuns.FinishFitsContract: speaks of requests that presented a payment; a request without one stops at the challenge and has only the contract of that state.
- EvidenceUnique.AcceptedContentsAreUnique: two files of the record itself may differ, as long as they verify as the same claims.
- IssueThenVerify.IssuedEvidenceVerifies: takes the committed schemas and the agreement of captured native artifacts as they are, since both compare fields with validators outside this model.
- Issuance.IssueEvidence: signing is one function of the claims, and identifiers and times of the record are not part of the claims modelled.
- Polling.ObserveUntilSealed: requires a positive poll interval, without which the loop need not end (`Polling.NoIntervalNoDeadline`).
- ScanBlame.RefusalIsThere: says nothing of the path of an incomplete scan, which is only where reading stopped.
- BoundedRead.ReadBodyWithinBudget: the response stream is taken to end or break eventually; a stream that never does is bounded by the caller's timeout.
- Verifier.VerifyEvidence: the native-artifact checks (src/flow/verify-evidence.ts:973-1383) are one predicate of the runtime; check names, categories' wording, details and warnings are presentation.
- Server.PaidResource.Perform: the asynchronous continuation of a request is a ghost part of its object, and the read loop is one call for each turn it takes between awaits.
- The observations list of the resource, its request components and header capture, and the error boundary for handler errors are not modelled.
- JavaScript's number formatting: a finite number is known by the text `String` gives it.
- JavaScript objects are trees: no cycles, symbols, sparse arrays, prototypes or integer-like key order.
- `toLowerCase` acts on ASCII letters only, which is all that hexadecimal text, schemes and host names hold; any other letter in a presented authorization is compared as written.
- `Number.isInteger`, size and header-syntax refusals of the binding builders (src/binding.ts:70-148) are left out: they only shrink what is issued.
- The structural check of a settle response and the scheme-payload check (src/x402-header.ts:558-682) are validators: sequences of one-field tests.
- The transaction-object admission and the endpoint's transport (src/flow/observe-transaction.ts:613-640, src/flow/evm-json-rpc.ts:228-282) are left out: the same shapes as the receipt's, and I/O.
- The live run around the observation loop, its attempt files and transactional writing (src/flow/live-e2e.ts:267-778, src/flow/issue-record.ts:234-349) are file operations in order.
- Opening a file, following links and container directories (src/flow/safe-read.ts:161-183) are results the verifier is given.
- Preflight, keys, configuration, egress control, argument parsing and report formatting would add only easy members.
