# Irena, verified

Irena runs a company's governance on an append-only chain. The company is whatever its records
say it is: one founding record, then amendments, each judged against the company as it stood.
Votes, meetings and individual decisions freeze that company at a height and leave records;
resolutions rest on those records and amend the company; and every record can be checked again
by a verifier that trusts nothing but the chain. Prunella is the chain underneath, Bornite the
engine that counts votes.

This project models those three cores in Dafny and proves what they promise together. The
readings of each operation are functions; the operations themselves are methods with the loops
and the mutable objects the code has, each proved equal to its function; and the theorems are
about the functions, over every input, every run and every extension of a ledger.

## What is proved

- The chain commits: equal head hashes mean equal chains, an accepted inclusion proof means
  the transaction is there, one ballot commitment means one list of ballots. A hash is any
  function at all, so each of these says "or here is a collision", and the collision is between
  two byte strings that were really hashed; for ballots, whose digests are taken as given, it may
  also be between the digests of two ballots that were really cast.
- The count is right: the tallies partition the electorate, no checked operation can fail once
  the electorate sums, acceptance is monotone, and the order anything is listed in is irrelevant.
  The outcome is told in plain sums, base and quorum for every rule (`OutcomeMeans`).
- The company is a fold with a linear history for each part, no provider ever returns, a past
  height never changes, a break never heals, and somebody can always amend. It reconstructs if and
  only if every company record is admitted where it stands (`ReconstructsExactly`).
- Each of the five verifiers accepts exactly what it should, told from the ledger alone: whose
  signatures are there, under which keys, over what, and what the company was at the time
  (`VoteVerdictIsExact`, `DecisionVerdictIsExact`, `MeetingVerdictIsExact`,
  `ResolutionVerdictIsExact`, `ExecutionVerdictIsExact`).
- Every operation that freezes, casts, files or publishes succeeds under an exact condition on the
  ledger (`VoteFreezes`, `CastDecides`, `ExecutionIsChecked` and the rest of `Conditions`), and no
  lifecycle goes back (`Lifecycles`).
- Nobody acts beyond a mandate: an amendment needs a channel whose scope, when it decided, had that
  part in it (`AuthorityIsMandate`, `OutOfScopeNeverHappens`), and what is in force after it is
  what was approved (`ApprovedIsInForce`).
- What a lifecycle writes its verifier accepts for ever: votes, decisions, meetings and
  resolutions, over any run of attempts, failures and unrelated blocks.
- A resolution publishes at most one amendment, amends exactly what was approved, and a person
  amending on their own signature never gains.

## Where the promise needs a condition

The code is kept as it is, and the exact condition is proved.

- `reconstruct` clamps a height above the head, and `freeze` does not refuse one. A vote or
  decision verifies if and only if its snapshot is what the ledger holds at its height, and only
  one frozen above the head can miss that (`FinalizedVoteVerifies`, `FinalizedDecisionVerifies`;
  over whole runs `VoteRoundTrip`, `DecisionRoundTrip`). Two that do miss it: `VoteFrozenAhead`,
  `DecisionFrozenAhead`.
- `execute` asks the company before the amendment whether the key may sign governance records;
  `verify_execution` asks the company after it. So the record verifies if and only if the body,
  read into the company as it was before the call, leaves the key that right: always for a
  register or a channel set, and otherwise by the new identities under the old authorisation or
  the old identities under the new one (`ExecutionRoundTrip`, `NormalBodyRoundTrip`). Somebody
  giving up their own right to sign is where it fails (`RightGivenUp`).
- `normalise_body` strips one leading `<?xml` and what it closes with, not every one, and the
  recorded resolution carries the normalised body, whose digest is then taken of its own normal
  form. A resolution verifies if and only if no declaration is left in front after one
  normalisation, unless two different texts digest alike (`ResolutionRoundTrip`, on
  `NormaliseTwice`). The reader refuses a second declaration but not an instruction such as
  `<?xml-stylesheet ?>`, and that is enough (`StackedDeclarations`, `StyledResolution`).
- `MeetingV1::close` succeeds if and only if the meeting and all its votes are open and, unless it
  has none, the rules of its channel do not contradict the people the channel had when the meeting
  opened (`CloseDecides`, on `CountDecides`): nothing asks that before opening. A close that has
  failed once can never be repeated (`FailedCloseIsFinal`, `HalfClosedIsStuck`), so such a meeting
  stays open for ever (`StuckForEver`, `AssemblyNeverCloses`). `finalize` does resume, and files
  each vote once (`FiledExactlyOnce`).

## How the model reads

- `World` holds the functions the protocol is built on: hashing, ids, digests, signing and
  verifying, reading a document, writing an envelope. They are arbitrary; where a theorem needs
  one to behave, it says so in a `requires`. `IdsCommit(b)` says two transactions on a ledger with
  one id are one transaction; `ReadsThrough` says that a body that reads, reads the same normalised.
- `Store` is the chain: an append refuses a transaction already committed, and fails whenever the
  disk says so. What the disk will say is a script, so every pattern of failure is covered.
- A payload is already parsed. An amendment keeps its text beside the parse, because the verifier
  compares the text.
- Votes are values inside a meeting, as they are owned in the code; `Vote`, `Decision`, `Meeting`
  and `ResolutionProcess` are the objects, and a refused operation provably moves no field unless
  the code itself stops half way.
- A verifier is a method that pushes checks onto a report. Each line is proved to say what its
  check means, and the report to be valid exactly when every check holds.

`Bytes`, `Merkle`, `Chain` model Prunella; `Ordering`, `Bornite`, `Evaluation` the count;
`Results` what a count means; `Parts`, `Documents`, `Text`, `Records` the documents, records and
store; `Ledger`, `History`, `Admission`, `Resolve` the company; `Vote`, `Decision`, `Counting`,
`Meeting`, `MeetingRuns`, `MeetingClosing`, `Agendas` how things are decided; `Demotion`,
`Approvals`, `Resolution`, `Executions`, `Process` what is done about it; `Evidence`, `Mandate`,
`Conditions`, `Verdicts`, `Lifecycles` what the records and the operations amount to, in terms of
people, channels and keys; `Outcomes` and `Succession` what that guarantees; `Instances` one small
firm on which each condition above fails.

## Model

| member | source | states |
|---|---|---|
| Bytes.LeRoundTrip | crates/prunella-conformance/src/oracle.rs:12-28 | a little-endian integer that fits its width reads back as itself |
| Bytes.PrefixedSplits | crates/prunella-conformance/src/oracle.rs:31-46 | a length-prefixed byte string can be cut off the front of what follows it in one way only |
| Bytes.DomainsSeparate | crates/prunella-conformance/src/oracle.rs:49-76 | two hash pre-images are equal exactly when both their domain tags and their contents are |
| Merkle.SplitPoint | crates/prunella-core/src/merkle.rs:128-134 | the loop returns the largest power of two strictly below n |
| Merkle.RootCommits | crates/prunella-core/src/merkle.rs:83-97 | under separated tags, two leaf lists of any lengths with one root are equal, or two byte strings hashed on the way collide |
| Merkle.PathComplete | crates/prunella-core/src/merkle.rs:314-355 | the generated path has the expected sides and folds to the root |
| Merkle.GeneratedProofAccepted | crates/prunella-core/src/merkle.rs:225-237 | a proof is generated for exactly the indices in range, and is accepted |
| Merkle.VerifyWith | crates/prunella-core/src/merkle.rs:256-297 | the verifier answers range, shape and fold errors in that order, and accepts exactly when the path folds to the root |
| Merkle.AcceptedProofSound | crates/prunella-core/src/merkle.rs:256-297 | whatever is accepted against a tree is the leaf at that index with exactly the generated steps, or a collision was hashed |
| Chain.IdPreimageInjective | crates/prunella-core/src/transaction.rs:68-102 | a transaction id pre-image determines every field it covers |
| Chain.HeaderPreimageInjective | crates/prunella-core/src/block.rs:49-53 | a header pre-image determines the header |
| Chain.BuiltHeights | crates/prunella-core/src/block.rs:138-203 | in a chain the builders made, block i is at height i with the derived root |
| Chain.ChainIdsCommit | crates/prunella-core/src/transaction.rs:68-102 | on a built chain two transactions with one id are one transaction, content and all, or a collision was hashed |
| Chain.HeadCommits | crates/prunella-core/src/block.rs:49-70 | two built chains with consistent ids and one head hash are equal block for block and transaction for transaction, or a collision was hashed |
| Chain.ProvedTransactionIsTheBlocks | crates/prunella-core/src/merkle.rs:304-312 | a transaction whose inclusion proof is accepted against a header is the one in the block at that index, content and all, or a collision was hashed |
| Ordering.SearchInFinds | crates/irena-core/src/authorisation.rs:129-136 | binary search over a strictly ordered list finds every element at its place |
| Ordering.SortForgetsOrder | crates/bornite-core/src/voter.rs:220-232 | sorting by key forgets the input order whenever keys are distinct |
| Ordering.CollectDistinct | crates/bornite-core/src/ballot.rs:78-89 | the sort and the walk with a seen-set return the ordered list, or name the duplicate that the specification names |
| Ordering.InsertStrict | crates/irena-vote/src/lifecycle.rs:241-254 | keeping ballots in voter order stays strictly ordered when a voter not yet present is inserted |
| Bornite.ProductsFit | crates/bornite-core/src/fraction.rs:77-81 | neither product of the share comparison overflows u128 |
| Bornite.RequiredWeightExact | crates/irena-vote/src/record.rs:112-128 | a weight reaches the stored ceiling exactly when the share comparison is not Less, and for a proportion the ceiling never exceeds the basis |
| Bornite.GroupsPartition | crates/bornite-eval/src/evaluate.rs:61-75 | yes, no, abstaining and silent voters partition the effective electorate, by weight and by head |
| Bornite.BallotsAreVoters | crates/bornite-eval/src/evaluate.rs:92-103 | summing over the ballots is summing over the voters who cast them |
| Evaluation.SumWeights | crates/bornite-eval/src/evaluate.rs:231-233 | the checked sum is the true total, and fails exactly when that exceeds u64 |
| Evaluation.Validate | crates/bornite-rules/src/validation.rs:76-131 | the loop collects exactly the issues of the rules and of each voter |
| Evaluation.CountConserves | crates/bornite-eval/src/evaluate.rs:98-146 | tallies add up to participation, participation and silence to the effective electorate, by weight and by head |
| Evaluation.CountBallots | crates/bornite-eval/src/evaluate.rs:92-146 | the tally loop computes the group totals and no addition overflows |
| Evaluation.EvaluateVote | crates/bornite-eval/src/evaluate.rs:45-228 | the engine computes what the group totals define, and none of its subtractions or expects can fail; what the outcome means in plain sums is `Results.OutcomeMeans` |
| Evaluation.AcceptanceIsMonotone | crates/bornite-eval/src/evaluate.rs:148-192 | an accepted result stays accepted when effective voters turn No, abstention or silence into Yes, under every rule set |
| Evaluation.ListingOrderIsIrrelevant | crates/bornite-core/src/voter.rs:220-246 | permuting the voters and the ballots changes neither the result nor any complaint, including which duplicate is named |
| Parts.NewIdentities | crates/irena-core/src/identities.rs:54-86 | the walk with a previous id and a key map reports every duplicate id and every pair sharing a key |
| Parts.AcceptedIdentitiesAreValid | crates/irena-core/src/identities.rs:54-86 | accepted exactly when, once sorted, ids are distinct and no key is on two persons |
| Parts.HolderIsThePerson | crates/irena-core/src/identities.rs:104-114 | looking a key up and looking its holder up are inverse |
| Parts.AllowsIsMembership | crates/irena-core/src/authorisation.rs:129-136 | the binary search answers whether the row is listed |
| Documents.NewAuthorisation | crates/irena-core/src/authorisation.rs:87-111 | the walk reports every duplicate row and a missing company signer |
| Documents.AcceptedAuthorisationIsValid | crates/irena-core/src/authorisation.rs:87-111 | accepted exactly when, once sorted, no row is listed twice and one is a company signer |
| Documents.NewChannels | crates/irena-core/src/channel.rs:398-424 | the walk reports too many channels, none, and every duplicate id |
| Documents.AcceptedChannelsAreValid | crates/irena-core/src/channel.rs:398-424 | accepted exactly when there are channels, not too many, and no id twice |
| Parts.NewRegister | crates/irena-core/src/shares.rs:51-87 | the walk that skips an overflowing addend still reports overflow exactly when the true total exceeds u64, and every other issue |
| Parts.AcceptedRegisterIsValid | crates/irena-core/src/shares.rs:51-87 | accepted exactly when the sorted list is ordered, positive and within u64 |
| Parts.RegisterForgetsOrder | crates/irena-core/src/shares.rs:51-87 | the order holders are listed in changes neither the register nor any issue |
| Parts.ListedChannelFound | crates/irena-core/src/channel.rs:430-437 | a listed channel is found by its id |
| Text.NormaliseTwice | crates/irena-core/src/xml.rs:1528-1540 | normalising twice is normalising once exactly when no declaration is left in front |
| Text.StackedDeclarations | crates/irena-core/src/xml.rs:1532-1540 | a concrete body, a declaration and then a processing instruction whose target begins with xml, on which it is not idempotent |
| Records.Store.Append | crates/prunella-store/src/store.rs:378-430 | an append adds one block holding the transaction, or refuses and changes nothing; a committed transaction is refused |
| Records.LocateStays | crates/prunella-store/src/store.rs:285-310 | a located transaction stays located at the same place under every extension |
| Ledger.LockoutIsExact | crates/irena-ledger/src/authority.rs:45-102 | the lockout rule lets through exactly the pairs under which some key can still sign company records |
| Ledger.ReconstructAt | crates/irena-ledger/src/state.rs:135-185 | the nested loops with early exit compute the fold over the chain up to the height, clamped to the head; which chains reconstruct, and to what, is `Admission.ReconstructsExactly` and `Admission.MadeOfItsRecords` |
| Ledger.PastIsFixed | crates/irena-ledger/src/state.rs:135-185 | for a height not above the head, reconstruction is unchanged by any appended blocks |
| Ledger.BreakIsPermanent | crates/irena-ledger/src/state.rs:135-185 | a break (any error but NoCompany) is the same error at every later height of every extension |
| Ledger.NeverLockedOut | crates/irena-ledger/src/authority.rs:45-102 | every reconstructed company has a key that may sign company records |
| Ledger.FoundedCompanyReconstructs | crates/irena-ledger/src/ledger.rs:42-71 | a founding record that is not refused reconstructs from the genesis block alone and can be amended |
| Ledger.PublishDecidesApply | crates/irena-ledger/src/ledger.rs:94-167 | for an amendment with a valid body, each refusal of publish holds exactly when apply rejects the composed record for the same reason |
| Ledger.PublishedTakesEffect | crates/irena-ledger/src/ledger.rs:94-167 | a successful publish leaves a chain that reconstructs to the old company with that one part replaced |
| Ledger.Publish | crates/irena-ledger/src/ledger.rs:94-167 | refusals in order before the ledger is touched; otherwise one amendment in its own block |
| Ledger.OtherRecordsChangeNothing | crates/irena-ledger/src/state.rs:150-180 | a block without company records changes only the height |
| History.ReconstructedHistory | crates/irena-ledger/src/state.rs:89-113 | every part has a linear history: each entry supersedes the one before, ids never repeat, the last provides the part and its value |
| History.NoAba | crates/irena-ledger/src/state.rs:89-113 | one provider at two heights means the part never changed between them |
| History.ReplacedForGood | crates/irena-ledger/src/state.rs:240-310 | a provider once replaced provides the part at no later height |
| History.OneSuccessor | crates/irena-ledger/src/state.rs:240-310 | two entries of a history superseding one record are one entry |
| History.CompanyIsFixed | crates/irena-ledger/src/state.rs:240-260 | who the company is and where it was founded never change |
| Resolve.ActorsAlwaysDerive | crates/irena-decision/src/resolve.rs:109-166 | validated registers and rosters always derive actors, in id order: the derivation error cannot occur |
| Resolve.GovernanceSignerAfter | crates/irena-decision/src/verify.rs:339-357 | a record outside the company namespaces is judged at its own height by the company it was checked under |
| Resolve.Push | crates/irena-decision/src/verify.rs:75-87 | one more line of a report; validity is that no line failed |
| Resolve.ReportDecides | crates/irena-decision/src/verify.rs:64-69 | a report that is exact and complete, or shows a failure, is valid exactly when every check holds |
| Decision.Decision.Freeze | crates/irena-decision/src/decision.rs:258-291 | pins the company, channel, actor and key at the height, or refuses and changes nothing |
| Decision.Decision.Sign | crates/irena-decision/src/decision.rs:299-311 | signs with the frozen key only |
| Decision.Decision.Finalize | crates/irena-decision/src/decision.rs:347-400 | the signature, the signer, the channel set, then one append; a refusal moves nothing |
| Decision.VerifyDecision | crates/irena-decision/src/verify.rs:102-321 | every reported check is exact and the report is valid exactly when all eight hold; which decisions those are is `Verdicts.DecisionVerdictIsExact` |
| Decision.DecisionVerdictIsPermanent | crates/irena-decision/src/verify.rs:102-321 | the verdict on a decision on the ledger, valid or not, is the same on every extension |
| Decision.FinalizedDecisionVerifies | crates/irena-decision/src/decision.rs:347-400 | a finalised decision verifies if and only if its snapshot is what the ledger holds at its height; only one frozen above the head can miss it |
| Decision.DecisionRoundTrip | crates/irena-decision/src/decision.rs:258-400 | frozen not above the head, then any attempts with any blocks between, once finalised: all eight checks pass on every extension |
| Decision.SignedIsWellSigned | crates/irena-decision/src/decision.rs:299-360 | with a signature scheme that works, no run from a decision not yet signed reaches one whose finalising is refused for its signature |
| Vote.StoredQuorumDecides | crates/irena-vote/src/record.rs:112-128 | the stored quorum number says by itself whether the quorum was met |
| Vote.CommitmentBinds | crates/irena-vote/src/ballot.rs:178-181 | one commitment over two ballot lists means one list, or two byte strings hashed in the tree collide, or two different ballots at one place have one digest |
| Vote.Vote.Freeze | crates/irena-vote/src/lifecycle.rs:177-217 | pins the channel, its electorate and the records in force, or refuses and changes nothing |
| Vote.Vote.Open | crates/irena-vote/src/lifecycle.rs:224-228 | from frozen only |
| Vote.Vote.Cast | crates/irena-vote/src/lifecycle.rs:241-254 | the checks of the ballot in their order, then one ballot a voter; which ballots those are is `Evidence.CastDecides` |
| Vote.Vote.Close | crates/irena-vote/src/lifecycle.rs:261-265 | from open only |
| Vote.Vote.Count | crates/irena-vote/src/lifecycle.rs:279-307 | counts under the rules re-read from the pinned channel set |
| Vote.Vote.Finalize | crates/irena-vote/src/lifecycle.rs:343-389 | recounts, checks the signer, appends once; a refusal moves nothing |
| Vote.VerifyVote | crates/irena-vote/src/verify.rs:107-384 | every reported check is exact and the report is valid exactly when all eleven hold; which votes those are is `Verdicts.VoteVerdictIsExact` |
| Vote.VoteVerdictIsPermanent | crates/irena-vote/src/verify.rs:107-384 | the verdict on a vote on the ledger, valid or not, is the same on every extension |
| Vote.FinalizedVoteVerifies | crates/irena-vote/src/lifecycle.rs:343-389 | a finalised vote verifies if and only if its snapshot is what the ledger holds at its height; only a vote frozen above the head can miss it |
| Vote.VoteRunKeeps | crates/irena-vote/src/lifecycle.rs:177-389 | over any run a frozen vote keeps sound ordered ballots over an unchanged snapshot, and its filed record verifies |
| Vote.VoteRoundTrip | crates/irena-vote/src/lifecycle.rs:177-389 | frozen not above the head, then any attempts with any blocks between, once finalised: all eleven checks pass on every extension |
| Meeting.Meeting.AddAgendaItem | crates/irena-meeting/src/lifecycle.rs:170-193 | appends an item numbered next, or refuses |
| Meeting.Meeting.Convene | crates/irena-meeting/src/lifecycle.rs:211-228 | a valid agenda, a governance signer, one append |
| Meeting.Meeting.OpenFor | crates/irena-meeting/src/lifecycle.rs:244-271 | the loop drafts, freezes and opens one vote for each vote item at the head, or changes nothing |
| Meeting.Meeting.CastBallot | crates/irena-meeting/src/lifecycle.rs:287-298 | casts in the first vote of that number, other votes unchanged |
| Meeting.Meeting.Close | crates/irena-meeting/src/lifecycle.rs:313-324 | closes and counts in order; a failure stops there and keeps what was done |
| Meeting.Meeting.Finalize | crates/irena-meeting/src/lifecycle.rs:389-422 | files the votes not yet filed, in order, then the final record; a failure keeps what was filed |
| Meeting.VerifyMeeting | crates/irena-meeting/src/verify.rs:110-387 | every reported check is exact and the report, with its votes, is valid exactly when all ten hold; which meetings those are is `Verdicts.MeetingVerdictIsExact` |
| Meeting.MeetingVerdictIsPermanent | crates/irena-meeting/src/verify.rs:110-387 | the verdict on a meeting on the ledger, valid or not, is the same on every extension |
| MeetingRuns.HalfClosedIsStuck | crates/irena-meeting/src/lifecycle.rs:313-324 | for any meeting at all, a close that fails after touching a vote leaves one that no later close, on any ledger, can finish |
| Counting.CountDecides | crates/irena-vote/src/lifecycle.rs:279-307 | a vote as any run keeps it counts, with the result the group totals define, if and only if the rules of its pinned channel do not contradict the people that channel had; otherwise the count fails with exactly those contradictions |
| MeetingClosing.CloseDecides | crates/irena-meeting/src/lifecycle.rs:313-324 | for every meeting a run can reach: closing succeeds if and only if the meeting and all its votes are open and, unless there are no votes, the channel resolved at the opening height and its rules do not contradict its people |
| MeetingClosing.StuckForEver | crates/irena-meeting/src/lifecycle.rs:244-324 | an open meeting with a vote no longer open, or with contradicted rules and at least one vote, stays open through every run |
| MeetingClosing.FailedCloseIsFinal | crates/irena-meeting/src/lifecycle.rs:313-324 | once closing an open meeting has failed, no run closes or finalises it |
| MeetingRuns.MeetingRunKeeps | crates/irena-meeting/src/lifecycle.rs:63-422 | what every step of a meeting keeps, failures half way included |
| MeetingRuns.MeetingRoundTrip | crates/irena-meeting/src/lifecycle.rs:63-422 | from a draft, any attempts with any failures and any blocks between: once finalised, all ten checks pass on every extension |
| MeetingRuns.FiledExactlyOnce | crates/irena-meeting/src/lifecycle.rs:389-452 | over any number of finalise attempts, one transaction for each vote in agenda order, then the record naming precisely those, and nothing else |
| Demotion.SeatIsListing | crates/irena-resolution/src/demotion.rs:55-71 | a seat is a line in the register or roster; identities play no part |
| Demotion.FindSeats | crates/irena-resolution/src/demotion.rs:55-71 | the loop collects exactly the channels the person sits on |
| Demotion.SelfDemotion | crates/irena-resolution/src/demotion.rs:90-133 | holds exactly when every seat after is a seat before on the very same channel |
| Demotion.IdentityDemotion | crates/irena-resolution/src/demotion.rs:142-187 | holds exactly when nobody else's entry is changed or removed |
| Demotion.FamiliesAreAllowed | crates/irena-resolution/src/demotion.rs:194-231 | the families compared are exactly those the authorisation lets the person sign |
| Demotion.DemotedGainsNothing | crates/irena-resolution/src/demotion.rs:55-231 | an amendment that passes its rule gains its signer no seat, changed channel or family, and leaves every other person and key holder in place |
| Approvals.LifecycleAndVerifierAgree | crates/irena-resolution/src/lifecycle.rs:219-397 | the lifecycle accepts an authority exactly when the verifier does, and both read the same approval |
| Approvals.AuthorityIsPermanent | crates/irena-resolution/src/verify.rs:232-442 | an authority that stands keeps standing and means the same approval on every extension |
| Approvals.ApprovedBaseWasInForce | crates/irena-resolution/src/resolution.rs:319-332 | the base an approval names for any part is the record in force at the height it was decided at |
| Resolution.VerifyResolution | crates/irena-resolution/src/verify.rs:203-442 | every reported check is exact; the report is valid exactly when all thirteen hold; an error means it does not verify; which resolutions those are is `Verdicts.ResolutionVerdictIsExact` |
| Resolution.VerifyCollective | crates/irena-resolution/src/verify.rs:445-562 | meeting, item, answer, vote and result in order, stopping where nothing further can be read |
| Resolution.StandingSourceDecides | crates/irena-resolution/src/verify.rs:246-316 | a source that verifies always reconstructs at its height, so the error passed on there cannot arise |
| Resolution.ResolutionVerdictIsPermanent | crates/irena-resolution/src/verify.rs:203-442 | the verdict on a resolution on the ledger, valid or not, is the same on every extension |
| Resolution.ResolutionRoundTrip | crates/irena-resolution/src/lifecycle.rs:180-211 | a finalised resolution verifies on every extension if and only if no declaration is left in front of its body after one normalisation, or the text with it and the text without it digest alike |
| Resolution.NormalKeepsDigest | crates/irena-resolution/src/resolution.rs:164-169 | the recorded body has the approved digest exactly when no declaration is left in front after one normalisation, or two different texts digest alike |
| Executions.FindExecution | crates/irena-resolution/src/lifecycle.rs:544-567 | the scan returns the first execution of the resolution in chain order |
| Executions.VerifyExecution | crates/irena-resolution/src/verify.rs:573-887 | every reported check is exact; the report is valid exactly when all eleven hold and the resolution verifies; which executions those are is `Verdicts.ExecutionVerdictIsExact` |
| Executions.ExecutionGathered | crates/irena-resolution/src/verify.rs:573-887 | the eleven checks, put together, are the execution, the resolution, the amendment and the company agreeing; what they amount to on the ledger is `Verdicts.ExecutionVerdictIsExact` |
| Outcomes.ExecutionVerdictIsPermanent | crates/irena-resolution/src/verify.rs:573-887 | the verdict on an execution on the ledger, valid or not, is the same on every extension |
| Outcomes.ExecutionRoundTrip | crates/irena-resolution/src/lifecycle.rs:416-534 | the record a successful execute writes verifies on its ledger and every extension if and only if the body is settled as above and, put in the place of its part in the company before the call, leaves the key its right to sign governance records |
| Outcomes.NormalBodyRoundTrip | crates/irena-resolution/src/lifecycle.rs:442-522 | for a body already normal, what it leaves the key in the company before the call is the whole condition: always for a register or channel set, and asked of the new identities or the new authorisation otherwise |
| Succession.BaseIsGone | crates/irena-resolution/src/lifecycle.rs:442-456 | after an amendment its base provides the part on no later ledger |
| Succession.AmendsWhatWasApproved | crates/irena-resolution/src/lifecycle.rs:416-456 | between the decision and the amendment the part never changed |
| Succession.NeverAgain | crates/irena-resolution/src/lifecycle.rs:416-534 | after one attempt has published, no attempt on the same proposal publishes again |
| Succession.RetryIsStale | crates/irena-resolution/src/lifecycle.rs:449-456 | and the refusal is the stale base, whenever nothing earlier refuses |
| Succession.AtMostOneAmendment | crates/irena-resolution/src/lifecycle.rs:416-534 | over any interleaving of attempts by any copies of a resolution, with any failures between the two appends, at most one amendment is published |
| Succession.SingleSuccessor | crates/irena-resolution/src/verify.rs:728-746 | two verifying executions of one target that replaced one record name the same amendment |
| Succession.OneExecutionEach | crates/irena-resolution/src/verify.rs:869-884 | at most one execution of a resolution verifies |
| Succession.NonEscalation | crates/irena-resolution/src/demotion.rs:55-231 | over any run of amendments on one signer's own decisions with the register fixed: no seat, changed channel or family gained, everybody else and every key holder as before |
| Process.CheckDemotion | crates/irena-resolution/src/lifecycle.rs:458-500 | which rule runs for which target, against the company as it is |
| Process.ResolutionProcess.CheckAuthority | crates/irena-resolution/src/lifecycle.rs:219-397 | everything re-derived from the ledger, errors in order; which authorities pass is `Mandate.AuthorityIsMandate` |
| Process.ResolutionProcess.CheckExecution | crates/irena-resolution/src/lifecycle.rs:416-500 | every refusal of execute before it publishes, in order |
| Process.ResolutionProcess.Finalize | crates/irena-resolution/src/lifecycle.rs:180-211 | authority, signer, company, record, one append; a refusal moves nothing |
| Process.ResolutionProcess.Execute | crates/irena-resolution/src/lifecycle.rs:416-534 | the amendment, then the link; a failed second append leaves the amendment published and the resolution finalised |
| Instances.AssemblyNeverCloses | crates/irena-meeting/src/lifecycle.rs:244-324 | an assembly through a channel that gives everybody one vote over a register that gives its holder two: it convenes and opens, closing fails, and it stays open through every run |
| Instances.DecisionFrozenAhead | crates/irena-decision/src/decision.rs:258-291 | a decision frozen at height one of a one-block ledger freezes, is signed and is filed, and verifies on no extension |
| Instances.VoteFrozenAhead | crates/irena-vote/src/lifecycle.rs:177-217 | a vote frozen the same way opens, closes, counts and is filed, and verifies on no extension |
| Instances.StyledResolution | crates/irena-resolution/src/record.rs:530-557 | a resolution whose body opens with a declaration and then an instruction whose target begins with xml is filed, and verifies on no extension |
| Instances.RightGivenUp | crates/irena-resolution/src/lifecycle.rs:442-522 | the one signer decides alone to keep only the right to amend: it is filed and executed without an error, and the execution verifies on no extension |
| Text.TrimIsTheMiddle | crates/irena-core/src/xml.rs:1528-1540 | trimming leaves exactly what stands between the white space on either side |
| Text.PlainBody | crates/irena-core/src/xml.rs:1528-1540 | a body that opens with no closed declaration loses only the white space around it |
| Text.StripsOne | crates/irena-core/src/xml.rs:1532-1540 | whatever opens with `<?xml` and is closed loses everything up to the first close, and the white space around the rest |
| Chain.IdLayout | crates/prunella-conformance/src/oracle.rs:14-63 | every field covered by a transaction id stands at its place in the pre-image, in its width |
| Chain.HeaderLayout | crates/prunella-conformance/src/oracle.rs:199-227 | every field of a header stands at its place in the pre-image, in its width |
| Chain.BuiltHeaders | crates/prunella-core/src/block.rs:138-203 | every block of a built chain has its height, the number of transactions it holds, the network of the genesis, the derived root and the hash of the block before |
| Chain.BuildersExtend | crates/prunella-core/src/block.rs:58-80 | building on the head of a built chain with transactions that carry their ids gives a longer built chain, with the timestamp and the transactions asked for |
| Chain.ProvedTransactionIsOnTheChain | crates/prunella-core/src/merkle.rs:304-312 | on a built chain a transaction whose proof is accepted against a header of it is the one in that block at that index, or a collision was hashed |
| Results.IssuesAreExact | crates/bornite-rules/src/validation.rs:76-131 | nothing is complained of exactly when shares are proper, everybody counts for one under equal weights, nobody is excluded where nobody may be, and an absolute quorum can be met |
| Results.TotalsMean | crates/bornite-eval/src/evaluate.rs:61-146 | every number of a result is the plain sum of the weights or the count of the people it is named after |
| Results.OutcomeMeans | crates/bornite-eval/src/evaluate.rs:104-192 | accepted exactly when the quorum inequality of the rule holds, the base of the threshold is not zero, and the Yes weight is more than the share of it, or just the share and ties accept |
| Results.ReasonMeans | crates/bornite-eval/src/evaluate.rs:174-192 | which reason is given, in the fixed order of the refusals |
| Results.ExcludedAbstentionIsSilence | crates/bornite-eval/src/evaluate.rs:150-157 | with no quorum and votes cast as the base, excluding abstentions: turning an abstention into silence never changes the outcome |
| Results.IncludedAbstentionIsNo | crates/bornite-eval/src/evaluate.rs:150-157 | where abstentions are included, or the votes cast are not the base, turning an abstention into No never changes the outcome, under any quorum |
| Results.TieRuleDecidesTies | crates/bornite-eval/src/evaluate.rs:174-192 | changing the tie rule decides an exact tie and changes no other outcome |
| Admission.ReconstructsExactly | crates/irena-ledger/src/state.rs:135-310 | reconstruction succeeds exactly when there is a company record and each one, in its place, is admitted: it names the company, sits in the namespace of its kind, is signed by a company signer listed just before it, supersedes what is in force there and leaves somebody able to amend |
| Admission.MadeOfItsRecords | crates/irena-ledger/src/state.rs:135-310 | the records of a reconstructed company are exactly the company records of the chain up to the height, in order, and each of them names that company |
| Admission.ForeignRecordBreaks | crates/irena-ledger/src/state.rs:240-248 | company records of two different companies on one chain: nothing reconstructs at any height from the later one on |
| Admission.ForeignRecordIsNamed | crates/irena-ledger/src/state.rs:240-248 | a record naming another company than the one just before it is the error at every height from its own on, with both names |
| Admission.RecordTakesForce | crates/irena-ledger/src/state.rs:262-310 | right after a company record the part it is of is what it carries, provided by it |
| Evidence.ListedResolves | crates/irena-decision/src/resolve.rs:223-256 | a listed channel resolves to everybody on its roll with the keys their identities hold; an individual one exactly when that is one person |
| Evidence.RefusalIsExact | crates/irena-vote/src/ballot.rs:137-170 | why a ballot is refused, in the fixed order: another vote, not on the roll, no key, a signature that is not by that key; and none of these for a genuine one |
| Evidence.CastDecides | crates/irena-vote/src/lifecycle.rs:241-254 | an open vote takes a ballot exactly when it is genuine and its voter is not in yet; then it holds that ballot besides the others |
| Evidence.VerifiedBallotsAreGenuine | crates/irena-vote/src/verify.rs:107-384 | every ballot of a verifying vote was cast for it by somebody on the roll of the channel, is signed under the key the identities in force gave them, and nobody is there twice |
| Evidence.RunBallotsAreGenuine | crates/irena-vote/src/lifecycle.rs:177-389 | so is every ballot held in any run from a vote frozen not above the head |
| Evidence.VerifiedResultIsTheCount | crates/irena-vote/src/verify.rs:341-384 | the result a verifying vote stores is what its own ballots come to under the rules of its channel, over everybody on the roll |
| Evidence.VoteFreezes | crates/irena-vote/src/lifecycle.rs:177-217 | a vote freezes exactly through the collective channels the company lists at the height |
| Evidence.DecisionFreezes | crates/irena-decision/src/decision.rs:258-291 | a decision freezes exactly through the individual channels with one person on the roll, who holds a key |
| Evidence.VerifiedDecisionIsSigned | crates/irena-decision/src/verify.rs:102-321 | a verifying decision is signed over its snapshot under the key the company of the frozen height held for the one person of the channel |
| Evidence.VerifiedMeetingTellsTheTruth | crates/irena-meeting/src/verify.rs:110-387 | in a verifying final record every vote item names a verifying vote held on that item, through the channel, at the height of opening, with exactly the outcome stored in it |
| Agendas.SubjectNamesTheItem | crates/irena-meeting/src/lifecycle.rs:271-275 | the subject of a vote names one item number and one title |
| Agendas.BlankIsSpace | crates/irena-meeting/src/meeting.rs:193-225 | a title is blank exactly when it is nothing but white space |
| Agendas.OpenDecides | crates/irena-meeting/src/lifecycle.rs:244-271 | a convened meeting opens exactly when nothing asks for a vote or its channel is collective at the head |
| Mandate.AuthorityIsMandate | crates/irena-resolution/src/lifecycle.rs:219-397 | lifecycle and verifier accept an authority exactly when a passed vote the meeting has against that item, or a decision, was taken through that channel on that digest, and for an amendment the channel listed then had a scope with that part in it |
| Mandate.OutOfScopeNeverHappens | crates/irena-core/src/channel.rs:361-365 | a proposal for a part the scope did not list, or through a channel with no scope, is neither filed nor published |
| Mandate.VerifiedExecutionTies | crates/irena-resolution/src/verify.rs:573-887 | a verifying execution ties a verifying resolution to an amendment after it whose text carries the recorded body as one stretch |
| Mandate.ApprovedIsInForce | crates/irena-resolution/src/verify.rs:698-712 | if the text of that amendment reads one way, then right after it the part in force is what the approved body reads as, provided by it |
| Mandate.PublishedWasInScope | crates/irena-resolution/src/lifecycle.rs:416-534 | whatever an execution published was in the scope of those who decided it |
| Mandate.PublishedIsInForce | crates/irena-resolution/src/lifecycle.rs:502-534 | and after the execution the part in force is what its normalised body reads as |
| Conditions.PublishSucceeds | crates/irena-ledger/src/ledger.rs:94-167 | publishing succeeds exactly for a readable amendment by a company signer over the record in force, that leaves somebody able to amend, if the store takes it |
| Conditions.DecisionFinalises | crates/irena-decision/src/decision.rs:347-400 | a decision is filed exactly when it is signed, the signature verifies, the signer is listed for governance, nothing pinned moved and the store takes it |
| Conditions.RunResultStands | crates/irena-vote/src/lifecycle.rs:343-360 | over any run a stored result is what a recount gives, so no recount ever finds a mismatch |
| Conditions.VoteFinalises | crates/irena-vote/src/lifecycle.rs:343-389 | a counted vote is filed exactly when the signer is listed for governance and the store takes it |
| Conditions.MeetingConvenes | crates/irena-meeting/src/lifecycle.rs:211-228 | a meeting is convened exactly from a draft with a valid agenda and a title, by a governance signer, if the store takes it |
| Conditions.MeetingCastDecides | crates/irena-meeting/src/lifecycle.rs:287-298 | in an open meeting a ballot on a vote item is taken exactly when the vote on that very item may still be joined by it; then only that vote changes, by that ballot |
| Conditions.ResolutionFinalises | crates/irena-resolution/src/lifecycle.rs:180-211 | a resolution is filed exactly when it is a draft with a title and a readable body and a mandate from the company at the head, by a governance signer, if the store takes it |
| Conditions.RuleIsGainingNothing | crates/irena-resolution/src/demotion.rs:90-231 | the rule on one person's amendment holds exactly when they gain no seat, no changed channel, no family, and nobody else's entry changes |
| Conditions.ExecutionIsChecked | crates/irena-resolution/src/lifecycle.rs:416-500 | execution goes ahead exactly when the resolution is filed and amends, nothing executes it yet, its mandate stands, the base is still in force and a single decider gains nothing |
| Conditions.ExecutionPublishes | crates/irena-resolution/src/lifecycle.rs:416-520 | and publishes exactly when, besides, the normalised body reads, a company signer holds the key, somebody can still amend and the store takes it |
| Lifecycles.VoteNeverGoesBack | crates/irena-vote/src/lifecycle.rs:177-389 | over any run a vote never returns to an earlier stage: the snapshot stays, no ballot is lost, none joins after closing, and the result stays once counted |
| Lifecycles.DecisionNeverGoesBack | crates/irena-decision/src/decision.rs:258-400 | neither does a decision, and its signature stays |
| Lifecycles.MeetingNeverGoesBack | crates/irena-meeting/src/lifecycle.rs:63-422 | neither does a meeting, failures half way included: agenda, opening and each of its votes only go forward |
| Verdicts.VoteVerdictIsExact | crates/irena-vote/src/verify.rs:107-384 | a vote verifies exactly when it precedes its record, pins what was in force, its electorate is the roll, its ballots are genuine, in order and committed to, its result is what they come to under rules that suit the roll, and a governance signer filed it |
| Verdicts.DecisionVerdictIsExact | crates/irena-decision/src/verify.rs:102-321 | a decision verifies exactly when it precedes its record, pins what was in force, is signed under the key of the one person its channel listed, and a governance signer filed it |
| Verdicts.MeetingVerdictIsExact | crates/irena-meeting/src/verify.rs:110-387 | a meeting verifies exactly when it was convened before with that titled agenda in that company, every line tells the truth, and governance signers filed both records |
| Verdicts.ResolutionVerdictIsExact | crates/irena-resolution/src/verify.rs:203-442 | a resolution verifies exactly when it has a title and reads, has a mandate from the company it names, settled before it, and a governance signer of that company filed it |
| Verdicts.ExecutionVerdictIsExact | crates/irena-resolution/src/verify.rs:573-887 | an execution verifies exactly when it is the first of a resolution that does, its amendment came after and carries the approved body over the base in force when they decided, a single decider gained nothing, and it is among the company's records |

## Left out

- XML reading and composing: a payload is a parsed record, composing and reading back are taken to agree, and the readers are an arbitrary function of the kind and the text.
- The label, id and time grammars (company, channel and voter ids, scheduled-at), the checks on a notarisation, and size limits on documents.
- Real BLAKE3, Ed25519 and Borsh beyond the encodings of transactions, headers and the tree; ids and digests of Irena records are arbitrary functions of the record.
- The command-line tools, the clock, files and rendering; block timestamps do not reach the governance layer.
- The store's tables, its acceptance policy and batches: a ledger is a sequence of blocks, and the only refusals are a duplicate transaction and a failing append.
- Re-appending an identical block, which the store answers as already present; the lifecycles always build a new block.
- Human-readable details of checks and errors, and the order of issues in a sorted, repeat-free report, which is modelled as a set.
- Outcome texts other than accepted and rejected in a meeting's final record; the verifier refuses them on vote items.
- Rosters and scopes as constructed: their results are subset types and sets with what their constructors guarantee.
- The notarisation of meeting records, which no check reads.
- Block heights and lengths are unbounded naturals in the governance layer; the chain layer keeps its `u32` and `u64` limits.
- Register amendments in the claim about one person's own signature: the code applies no rule there, so nothing holds of them.
- Succession.AtMostOneAmendment: rests on ids committing to their transactions (`IdsCommit`), which `Chain.ChainIdsCommit` proves of the chain layer's own transactions up to a hash collision; the two layers' transactions are separate types.
- Mandate.ApprovedIsInForce: asks that the text of the amendment reads one way (`ReadsOneWay`), because the verifier only asks that the text contains the approved body, and reading XML is an arbitrary function here; what an execution itself publishes needs no such thing (`Mandate.PublishedIsInForce`).
