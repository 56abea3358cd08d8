# smart-charity in Dafny

A verified model of the smart-charity crowdfunding contracts:

- **Campaign** keeps a donation ledger against a funding target and a deadline. Donors get refunds if the target is missed. Beneficiaries are paid once the target is met.
- **BeneficiaryRepository** holds the active beneficiaries, the pending (staged) ones and an append-only queue of change requests.
- **ChangeBallot** is a time-boxed, donor-only vote that decides one change request.

The behaviour is taken from the contracts' test suites: `test/Campaign.js`, `test/ChangeBallot.js` and `test/BeneficiaryRepository.js`. The Solidity sources are not part of this model.

Layout:

- `common.dfy` (`Common`): addresses as a 160-bit numeric `newtype` with a zero address, every revert as an `Error` (one constructor per revert reason), and the `Outcome`/`Result`/`Option` types.
- `ledger.dfy` (`Ledger`): the donation ledger as values.
  - The ledger invariant `Consistent` is defined recursively.
  - `ConsistentMeans` proves it against the reference sum `Total`: each donor listed once, exactly the entries listed, the total equal to the sum.
  - Preservation lemmas cover a donation and a refund.
- `tally.dfy` (`Tally`): a ballot's vote count.
  - `CountAccepts` counts the accepting votes.
  - `Decide` is the winning rule.
  - `Tallied` is the running-tally invariant, with its bridge lemma `TalliedMeans`.
- `registry.dfy` (`Registry`): beneficiary records as a `Roster` value, field validation, and the effect `ApplyChange` of committing a change request.
- `charity.dfy` (`Charity`): the three contracts as classes whose methods update their fields in place.
  - Each class has a `Valid()` invariant that every method keeps.
  - Each operation's contract states every revert, in one fixed order, and the new state. Where the tests pin the order it is theirs; elsewhere it is assumed (see "## Left out").
  - The classes refer to one another (a campaign owns its repository, and repositories and ballots point back to their campaign), so they share one module.
- `scenarios.dfy` (`Scenarios`): the test cases replayed against the contracts of the operations. Each method's postcondition is what its test observes. A few follow-up calls that the tests do not make are named as such in their rows (a repeat payout, a donation after a refund).

The caller (`msg.sender`), the current block time and the value sent with a call are explicit parameters. Block time never decreases: a campaign and a ballot each remember the latest time they were called at (a ghost field) and require the next call's time to be no earlier. A transfer of funds is modelled as the amount the operation returns. A revert is an `Err`/`Reverted` result that leaves every field as it was, except the ghost clock `lastNow`, which moves to the time of the call.

`test/Campaign.js:282-294` pins the order of claimFunds' checks. A beneficiary on an unfulfilled campaign gets "Unfulfilled", and a non-beneficiary on the same campaign gets "Not a beneficiary". So `ClaimFunds` checks the beneficiary first.

## Model

| member | source | states |
|---|---|---|
| Charity.CampaignParamsError | test/Campaign.js:57-91 | construction fails exactly on an empty title, an empty description, a zero target, an end not in the future, or a zero author, reporting the first failure in that order; no error iff all five hold |
| Charity.Campaign.constructor | test/Campaign.js:35-55 | stores title, description, target, end and author unchanged; the ledger is empty; a fresh, empty beneficiary repository points back to the campaign |
| Charity.Campaign.Create | test/Campaign.js:35-91 | deploying reverts iff a validation fails, with that validation's error; otherwise yields a fresh valid campaign holding the given data, with no donations, refunds or payouts, and a fresh, valid, empty beneficiary repository |
| Charity.Campaign.AmountIsDonationSum | test/Campaign.js:143-155 | the donation getter: an address that was not refunded reads exactly the sum of its accepted donations in the campaign's donation log (0 if it never gave), a refunded one reads 0 |
| Charity.Campaign.IsDonor | test/Campaign.js:132-141 | a donor is an address with a positive recorded amount, and in a valid campaign it is listed among the counted donors |
| Charity.Campaign.GetDonorsCount | test/Campaign.js:157-174 | the donor count equals the number of distinct addresses with a ledger entry |
| Charity.Campaign.Donate | test/Campaign.js:95-155 | reverts Expired at or after the end, else Fulfilled once the target is met, else InsufficientAmount for zero; otherwise adds the value to the caller's entry, appends the donation to the log, lists a first-time donor, raises the total by the value, makes the caller a donor, and keeps the ledger consistent; once any donor was refunded every donation is Expired |
| Charity.Campaign.ClaimRefund | test/Campaign.js:178-242 | reverts NotADonor, then ActiveCampaign before the end, then Fulfilled if the target was met; otherwise returns exactly the caller's recorded amount, zeroes it (so a second claim is NotADonor), lowers the total by it and records the caller as refunded |
| Charity.Campaign.ClaimFunds | test/Campaign.js:261-294 | reverts NotABeneficiary for a non-beneficiary (whatever the donations), then Unfulfilled below target, then AlreadyPaid for a repeat claim; otherwise pays exactly the beneficiary's recorded, positive amount and marks it paid |
| Charity.Campaign.EntryWithinTotalDonated | test/Campaign.js:178-194 | no donor's recorded amount exceeds the campaign total, so a refund can always be paid from it |
| Charity.Campaign.RefundIsFinal | test/Campaign.js:229-242 | a refunded address is no longer a donor, and every later call comes at or after the end, so no donation can restore its entry |
| Ledger.ConsistentMeans | test/Campaign.js:157-174 | a consistent ledger lists each donor exactly once, lists exactly the addresses with entries, and its total is the sum of the entries |
| Ledger.DonorCount | test/Campaign.js:157-174 | in a consistent ledger the number of distinct donors equals the length of the donor list |
| Ledger.EntryWithinTotal | test/Campaign.js:178-194 | every entry of a consistent ledger is at most its total |
| Ledger.CreditKeepsLogged | test/Campaign.js:143-155 | crediting a donation and logging it keeps every entry equal to the sum of its donor's logged donations |
| Ledger.CreditKeepsConsistent | test/Campaign.js:143-174 | crediting a donation keeps the ledger consistent: a repeat donor is not listed twice, and the total grows by exactly the donation |
| Ledger.RewriteKeepsConsistent | test/Campaign.js:229-242 | overwriting a listed donor's entry (zeroing it on refund) keeps the ledger consistent, with the total shifted by the difference |
| Tally.TalliedMeans | test/ChangeBallot.js:30-45 | a consistent ballot lists each voter exactly once, lists exactly the addresses that voted, and its running tally equals the count of cast and accepting votes |
| Tally.CastKeepsTallied | test/ChangeBallot.js:39-45 | recording a first vote, appending the voter and bumping the tally keeps the ballot consistent |
| Tally.CountWithinCast | test/ChangeBallot.js:64-92 | accepting votes never outnumber the votes cast |
| Tally.AllRejectLoses | test/ChangeBallot.js:64-81 | with at least one vote cast and every cast vote rejecting, the decision is reject |
| Tally.AllAcceptWins | test/ChangeBallot.js:83-92 | with every cast vote accepting, the decision is accept |
| Registry.FieldError | test/BeneficiaryRepository.js:70-101 | beneficiary fields fail exactly on an empty name, then an empty reason, then a zero amount, then the zero address; no error iff the record is well formed and the address nonzero |
| Registry.Without | test/BeneficiaryRepository.js:262-274 | removing an address from the enumeration keeps exactly the other addresses |
| Registry.AddActiveEffect | test/BeneficiaryRepository.js:32-68 | a direct addition keeps the records consistent, makes the address enumerable with the given record, and drops no earlier beneficiary |
| Registry.StageEffect | test/BeneficiaryRepository.js:138-148 | staging keeps the records consistent, stores the staged record, and leaves the payable beneficiaries and their order unchanged |
| Registry.ApplyChangeValid | test/BeneficiaryRepository.js:262-274 | committing a change keeps the records consistent: no duplicate enumeration, enumeration equals active records, all records well formed |
| Registry.ApplyChangeEffect | test/BeneficiaryRepository.js:262-274 | a commit makes the staged beneficiary active with its staged record and unstaged, removes the removed beneficiary from the enumeration and the active records, and leaves every other address's records as they were |
| Charity.BeneficiaryRepository.constructor | test/BeneficiaryRepository.js:16-21 | a new repository belongs to its campaign and has no beneficiaries, staged records or requests |
| Charity.BeneficiaryRepository.IsValidBeneficiary | test/BeneficiaryRepository.js:62-68 | an address is a valid beneficiary iff it is enumerated among the active beneficiaries |
| Charity.BeneficiaryRepository.GetBeneficiaryAddresses | test/BeneficiaryRepository.js:32-44 | the enumeration lists each valid beneficiary exactly once and nothing else |
| Charity.BeneficiaryRepository.GetBeneficiaryByAddress | test/BeneficiaryRepository.js:32-44 | a valid beneficiary's stored, well-formed record; the all-empty record for any other address |
| Charity.BeneficiaryRepository.PendingBeneficiaries | test/BeneficiaryRepository.js:138-148 | the staged, well-formed record of an address; the all-empty record when none is staged |
| Charity.BeneficiaryRepository.ChangeRequests | test/BeneficiaryRepository.js:150-206 | the request at an index exists iff the index is below the number of requests, and it is that request, with a nonempty description |
| Charity.BeneficiaryRepository.AddBeneficiary | test/BeneficiaryRepository.js:46-114 | reverts RestrictedAccess for a non-author, then AlreadyHaveDonors once the campaign has a donor, then the first field error; otherwise the records become the old ones with the beneficiary added, and it is valid and retrievable; a revert changes nothing |
| Charity.BeneficiaryRepository.AddPendingBeneficiary | test/BeneficiaryRepository.js:118-148 | reverts RestrictedAccess for a non-author, then the first field error, whatever the donors; otherwise only the staged records change, gaining the record |
| Charity.BeneficiaryRepository.RequestBeneficiaryChange | test/BeneficiaryRepository.js:150-259 | reverts RestrictedAccess, then DescriptionRequired, then BallotEndMustBeInFuture; otherwise appends, at the next index, a request with the given addresses and description and a fresh, empty ballot ending at the given time over this campaign, keeping earlier requests |
| Charity.BeneficiaryRepository.CommitBeneficiaryChange | test/BeneficiaryRepository.js:262-305 | reverts RestrictedAccess, NoSuchRequest, AlreadyCommitted, BallotNotFinishedYet before the ballot end, then DonorsRejectedRequest when the ballot rejects; otherwise the records become ApplyChange of the old ones and the request is marked committed |
| Charity.ChangeBallot.constructor | test/ChangeBallot.js:11-20 | a new ballot has its end and campaign, no votes, and its creation time as the latest time it was called at |
| Charity.ChangeBallot.VoterIndices | test/ChangeBallot.js:39-45 | the voter at a position exists iff the position is below the number of votes cast, and that voter has a recorded vote |
| Charity.ChangeBallot.Vote | test/ChangeBallot.js:23-54 | reverts NotEligibleToVote for a non-donor, then AlreadyVoted, then Expired at or after the end; otherwise records the choice and appends the voter, keeping the tally consistent; a revert changes nothing; once the ballot has been called at or after its end every vote reverts |
| Charity.ChangeBallot.GetWinningOption | test/ChangeBallot.js:58-92 | in a valid ballot the decision is accept iff nobody voted or more than half of the recorded cast votes accept (counted independently of the running tally) |
| Charity.ChangeBallot.TallyCounts | test/ChangeBallot.js:39-45 | in a valid ballot the running tally equals the number of recorded votes and of accepting ones, and the accepting count is at most the cast count |
| Charity.ChangeBallot.NoVotesAccepts | test/ChangeBallot.js:58-62 | a ballot with no votes accepts |
| Charity.ChangeBallot.AllRejectsLose | test/ChangeBallot.js:64-81 | a ballot where someone voted and every cast vote rejects rejects, however many donors abstain |
| Charity.ChangeBallot.AllAcceptsWin | test/ChangeBallot.js:83-92 | a ballot where every cast vote accepts accepts |
| Scenarios.NewCampaign | test/Campaign.js:23-32 | the per-test campaign: "test"/"test", target 10000, ending the next day, with an empty ledger and repository |
| Scenarios.InitializationStoresData | test/Campaign.js:35-55 | a deployed campaign reports exactly the title, description, target, end and author it was given |
| Scenarios.InitializationRejections | test/Campaign.js:57-91 | each invalid constructor argument yields its own error |
| Scenarios.DonationRejections | test/Campaign.js:95-130 | a donation two days later on a fresh campaign is Expired, donations after the target is met are Fulfilled, zero donations are InsufficientAmount |
| Scenarios.DonationsAccumulate | test/Campaign.js:132-155 | a donor of 1000 then 500 is a donor with 1500 recorded |
| Scenarios.UniqueDonorsCounted | test/Campaign.js:157-174 | three donations from two addresses count two donors |
| Scenarios.RefundOnce | test/Campaign.js:229-242 | after an unfulfilled campaign ends a donor of 1000 gets back exactly 1000, and a second claim is NotADonor; a donation in between, which the test does not make, is Expired |
| Scenarios.RefundRejections | test/Campaign.js:196-227 | refunds are NotADonor for a non-donor, ActiveCampaign before the end, Fulfilled once the target was met |
| Scenarios.CampaignWithBeneficiary | test/Campaign.js:248-259 | the payout setup: one beneficiary "test"/"test"/10000 added before any donation |
| Scenarios.PayoutOnce | test/Campaign.js:261-280 | once the target is met the beneficiary is paid exactly 10000; the second claim, which the test does not make, shows the assumed AlreadyPaid guard |
| Scenarios.PayoutRejections | test/Campaign.js:282-294 | below target a beneficiary's claim is Unfulfilled and a non-beneficiary's claim is NotABeneficiary |
| Scenarios.BallotWithTwoDonors | test/ChangeBallot.js:11-20 | the ballot setup: two donors, an outsider who is not a donor, and an empty ballot ending the next day |
| Scenarios.VotingRules | test/ChangeBallot.js:23-54 | an outsider's vote is NotEligibleToVote, a second vote is AlreadyVoted, the first voter is listed at index 0, a late vote is Expired |
| Scenarios.RejectingBallot | test/ChangeBallot.js:58-81 | no votes accepts; one reject with one abstention rejects; two rejects reject |
| Scenarios.AcceptingBallot | test/ChangeBallot.js:83-92 | two accepts accept |
| Scenarios.BeneficiaryAdded | test/BeneficiaryRepository.js:32-68 | an added beneficiary is enumerated, retrievable as "test"/"test"/10000, and valid |
| Scenarios.BeneficiaryFieldRejections | test/BeneficiaryRepository.js:70-101 | an empty name, an empty reason, a zero amount and the zero address each yield their own error |
| Scenarios.BeneficiaryAccessRejections | test/BeneficiaryRepository.js:46-114 | a non-author is refused (before the address check) and a direct addition after a donation is AlreadyHaveDonors |
| Scenarios.CampaignWithRequest | test/BeneficiaryRepository.js:118-136 | the change setup: one donation, beneficiary 2 staged, and request 0 = (remove 1, add 2, "test") with an empty ballot ending the next day |
| Scenarios.RequestsRecorded | test/BeneficiaryRepository.js:138-206 | the staged record and the add-and-remove, add-only and remove-only requests read back as given |
| Scenarios.RequestRejections | test/BeneficiaryRepository.js:208-259 | requests without a description or with a past ballot end revert with their own errors; staging or requesting by a non-author is RestrictedAccess |
| Scenarios.CommitAccepted | test/BeneficiaryRepository.js:262-274 | committing the unopposed request after its ballot ended succeeds; beneficiary 2 is enumerated and beneficiary 1 is not |
| Scenarios.CommitRejections | test/BeneficiaryRepository.js:276-305 | a commit before the ballot end is BallotNotFinishedYet, after a rejecting vote is DonorsRejectedRequest, and by a non-author is RestrictedAccess |

## Left out

- The campaign factory (`test/CampaignFactory.js`) is context, not part of the model.
- Ether balances, gas costs and failed transfers are not modelled. A payout or refund is the amount the operation returns; the tests compare balances net of gas.
- Events emitted by the contracts are not modelled.
- Charity.Campaign.Donate: amounts and totals are unbounded naturals, so uint256 overflow is not modelled. Donations only move within a target-bounded campaign.
- Clock advancement (`time.increase`) is not modelled. Time is a parameter of every time-dependent operation, and the scenarios pass "two days later" explicitly. There is no single clock shared by all contracts: each campaign and each ballot requires non-decreasing times for its own calls, while the repository's request and commit take the time they are given unchecked. A commit does not advance its ballot's clock, so the model admits a commit at a time after the ballot's end followed by a vote at an earlier time, which can turn the ballot's decision after the change was applied; one shared clock would rule that out.
- Revert orders the tests do not pin are assumed. The tests pin NotADonor before ActiveCampaign, NotABeneficiary before Unfulfilled, RestrictedAccess before AddressRequired, and RestrictedAccess before BallotNotFinishedYet. The following orders are assumed:
  - the constructor's checks (title, description, target, end, author);
  - Donate's checks (Expired, Fulfilled, InsufficientAmount);
  - ClaimRefund's ActiveCampaign before Fulfilled;
  - the field checks (name, reason, amount, address);
  - AddBeneficiary's RestrictedAccess and AlreadyHaveDonors before the field checks;
  - Vote's checks (NotEligibleToVote, AlreadyVoted, Expired);
  - RequestBeneficiaryChange's checks (RestrictedAccess, DescriptionRequired, BallotEndMustBeInFuture);
  - CommitBeneficiaryChange's checks after RestrictedAccess.
- Concurrent submission (`Promise.all` in the ballot tests) is not modelled. Transactions run one after another; the two votes are applied in sequence.
- The rule that a change request must name at least one address (not both zero) is not enforced. No test exercises it and no revert for it is known, so `RequestBeneficiaryChange` accepts two zero addresses.
- Charity.Campaign.ClaimFunds: the AlreadyPaid guard is an assumption added to prevent a double payout; the tests never make a second claim. Its position after the other checks is an assumption too. No end-time condition is placed on a payout.
- Charity.BeneficiaryRepository.CommitBeneficiaryChange: the NoSuchRequest and AlreadyCommitted guards are assumptions the tests do not exercise. An added address with no staged record is left as it is.
- Charity.BeneficiaryRepository.AddBeneficiary: re-adding an active address overwrites its record without listing it twice (not exercised by the tests).
- Charity.Campaign.GetDonorsCount: a refunded address stays listed. The count of addresses that ever donated never drops, so AlreadyHaveDonors keeps holding after a refund.
- Tally.Decide: the tie rule (a tie rejects) is read from the winning condition and is not exercised by the tests.
