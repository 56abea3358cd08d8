/**
 * The behaviours the contract suites exercise, replayed against the model.
 * Each method builds fresh contracts, performs the suite's calls with explicit
 * caller, time (never decreasing) and value, and states in its postcondition
 * what the suite observes, plus a few follow-up calls the suite does not make
 * (marked in their comments); the proofs use only the contracts of the
 * operations.
 *
 * "Next day" is `Now + Day`; "two days later" is `Now + 2 * Day`.
 */
module Scenarios {
  import opened Common
  import opened Ledger
  import opened Registry
  import opened Charity

  const AuthorAddr: Address := 1
  const DonorAddr: Address := 2
  const Donor2Addr: Address := 3
  const BeneficiaryAddr: Address := 4
  const Beneficiary2Addr: Address := 5
  const OutsiderAddr: Address := 6

  const Now: nat := 1_600_000_000
  const Day: nat := 86_400
  const Target: nat := 10_000

  /** A campaign "test"/"test" with target 10000, ending the next day. */
  method NewCampaign() returns (c: Campaign)
    ensures fresh(c) && fresh(c.beneficiaryRepo) && c.Valid()
    ensures c.author == AuthorAddr && c.targetAmount == Target && c.endTimestamp == Now + Day
    ensures c.donorsAmounts == map[] && c.donors == [] && c.totalDonated == 0 && c.paidBeneficiaries == {}
    ensures c.lastNow == Now && c.refunded == {}
    ensures c.beneficiaryRepo.Valid() && c.beneficiaryRepo.campaign == c
    ensures c.beneficiaryRepo.Records() == EmptyRoster && c.beneficiaryRepo.changeRequests == []
    ensures c.beneficiaryRepo.committed == {}
  {
    c := new Campaign("test", "test", Target, Now + Day, AuthorAddr, Now);
  }

  /** Construction stores its arguments unchanged. */
  method InitializationStoresData()
    returns (title: string, description: string, targetAmount: nat, endTimestamp: nat, author: Address)
    ensures title == "test" && description == "test" && targetAmount == Target
    ensures endTimestamp == Now + Day && author == AuthorAddr
  {
    var r := Campaign.Create("test", "test", Target, Now + Day, AuthorAddr, Now);
    var c := r.value;
    title, description, targetAmount, endTimestamp, author :=
      c.title, c.description, c.targetAmount, c.endTimestamp, c.author;
  }

  /** Construction reverts on an empty title or description, a zero target, a past end, a zero author. */
  method InitializationRejections() returns (errors: seq<Error>)
    ensures errors == [TitleRequired, DescriptionRequired, TargetAmountMustBePositive,
                       EndMustBeInFuture, AuthorRequired]
  {
    var noTitle := Campaign.Create("", "test", Target, Now + Day, AuthorAddr, Now);
    var noDescription := Campaign.Create("test", "", Target, Now + Day, AuthorAddr, Now);
    var noTarget := Campaign.Create("test", "test", 0, Now + Day, AuthorAddr, Now);
    var pastEnd := Campaign.Create("test", "test", Target, Now - 100, AuthorAddr, Now);
    var noAuthor := Campaign.Create("test", "test", Target, Now + Day, ZeroAddress, Now);
    errors := [noTitle.error, noDescription.error, noTarget.error, pastEnd.error, noAuthor.error];
  }

  /** Donations revert after the end, once the target is met, and for a zero amount. */
  method DonationRejections() returns (late: Outcome, overTarget: Outcome, zero: Outcome)
    ensures late == Reverted(Expired)
    ensures overTarget == Reverted(Fulfilled)
    ensures zero == Reverted(InsufficientAmount)
  {
    var c := NewCampaign();
    zero := c.Donate(DonorAddr, 0, Now);
    var fulfil := c.Donate(DonorAddr, Target, Now);
    overTarget := c.Donate(Donor2Addr, 100, Now);
    var c2 := NewCampaign();
    late := c2.Donate(DonorAddr, 1000, Now + 2 * Day);
  }

  /** A donor is recorded as such, with the sum of its donations. */
  method DonationsAccumulate() returns (isDonor: bool, recorded: nat)
    ensures isDonor && recorded == 1500
  {
    var c := NewCampaign();
    var first := c.Donate(DonorAddr, 1000, Now);
    var second := c.Donate(DonorAddr, 500, Now);
    isDonor := c.IsDonor(DonorAddr);
    recorded := AmountOf(c.donorsAmounts, DonorAddr);
  }

  /** Three donations from two addresses make two donors. */
  method UniqueDonorsCounted() returns (count: nat)
    ensures count == 2
  {
    var c := NewCampaign();
    var d1 := c.Donate(DonorAddr, 1000, Now);
    var d2 := c.Donate(DonorAddr, 1000, Now);
    var d3 := c.Donate(Donor2Addr, 500, Now);
    count := c.GetDonorsCount();
  }

  /**
   * After an unfulfilled campaign ends a donor gets exactly its donation back,
   * once: a later donation is expired and a second claim finds no donor.
   */
  method RefundOnce() returns (first: Result<nat>, redonate: Outcome, second: Result<nat>)
    ensures first == Ok(1000)
    ensures redonate == Reverted(Expired)
    ensures second == Err(NotADonor)
  {
    var c := NewCampaign();
    var d := c.Donate(DonorAddr, 1000, Now);
    first := c.ClaimRefund(DonorAddr, Now + 2 * Day);
    redonate := c.Donate(DonorAddr, 1000, Now + 3 * Day);
    second := c.ClaimRefund(DonorAddr, Now + 3 * Day);
  }

  /** Refunds revert for a non-donor, while the campaign is active, and once it is fulfilled. */
  method RefundRejections() returns (nonDonor: Result<nat>, active: Result<nat>, fulfilled: Result<nat>)
    ensures nonDonor == Err(NotADonor)
    ensures active == Err(ActiveCampaign)
    ensures fulfilled == Err(Fulfilled)
  {
    var c := NewCampaign();
    nonDonor := c.ClaimRefund(DonorAddr, Now);
    var d := c.Donate(DonorAddr, 1000, Now);
    active := c.ClaimRefund(DonorAddr, Now);
    var c2 := NewCampaign();
    var d2 := c2.Donate(DonorAddr, Target, Now);
    fulfilled := c2.ClaimRefund(DonorAddr, Now + 2 * Day);
  }

  /** A campaign with beneficiary "test"/"test"/10000 added before any donation. */
  method CampaignWithBeneficiary() returns (c: Campaign)
    ensures fresh(c) && fresh(c.beneficiaryRepo) && c.Valid() && c.beneficiaryRepo.Valid()
    ensures c.beneficiaryRepo.campaign == c
    ensures c.author == AuthorAddr && c.targetAmount == Target && c.endTimestamp == Now + Day
    ensures c.donorsAmounts == map[] && c.donors == [] && c.totalDonated == 0 && c.paidBeneficiaries == {}
    ensures c.lastNow == Now && c.refunded == {}
    ensures c.beneficiaryRepo.beneficiaries == map[BeneficiaryAddr := Beneficiary("test", "test", 10000)]
    ensures c.beneficiaryRepo.beneficiaryAddresses == [BeneficiaryAddr]
    ensures c.beneficiaryRepo.pendingBeneficiaries == map[]
    ensures c.beneficiaryRepo.changeRequests == [] && c.beneficiaryRepo.committed == {}
  {
    c := NewCampaign();
    var added := c.beneficiaryRepo.AddBeneficiary("test", "test", 10000, BeneficiaryAddr, AuthorAddr);
  }

  /**
   * Once the target is met the beneficiary receives exactly its amount; the
   * second claim, which the suite does not make, shows the AlreadyPaid guard.
   */
  method PayoutOnce() returns (paid: Result<nat>, again: Result<nat>)
    ensures paid == Ok(10000)
    ensures again == Err(AlreadyPaid)
  {
    var c := CampaignWithBeneficiary();
    var d := c.Donate(DonorAddr, Target, Now);
    paid := c.ClaimFunds(BeneficiaryAddr);
    again := c.ClaimFunds(BeneficiaryAddr);
  }

  /**
   * Before the target is met a beneficiary's claim reverts as unfulfilled, while
   * a non-beneficiary's claim reverts as such (that check comes first).
   */
  method PayoutRejections() returns (early: Result<nat>, stranger: Result<nat>)
    ensures early == Err(Unfulfilled)
    ensures stranger == Err(NotABeneficiary)
  {
    var c := CampaignWithBeneficiary();
    early := c.ClaimFunds(BeneficiaryAddr);
    stranger := c.ClaimFunds(DonorAddr);
  }

  /** A ballot ending the next day over a campaign with two donors of 1000 each. */
  method BallotWithTwoDonors() returns (c: Campaign, b: ChangeBallot)
    ensures fresh(c) && fresh(b) && c.Valid() && b.Valid() && b.campaign == c
    ensures c.IsDonor(DonorAddr) && c.IsDonor(Donor2Addr) && !c.IsDonor(OutsiderAddr)
    ensures b.endTimestamp == Now + Day && b.votes == map[] && b.voterIndices == [] && b.lastNow == Now
  {
    c := NewCampaign();
    var d1 := c.Donate(DonorAddr, 1000, Now);
    var d2 := c.Donate(Donor2Addr, 1000, Now);
    b := new ChangeBallot(Now + Day, c, Now);
  }

  /** Only donors vote, each once, before the end; voters are listed in cast order. */
  method VotingRules() returns (outsider: Outcome, twice: Outcome, firstVoter: Option<Address>, late: Outcome)
    ensures outsider == Reverted(NotEligibleToVote)
    ensures twice == Reverted(AlreadyVoted)
    ensures firstVoter == Some(DonorAddr)
    ensures late == Reverted(Expired)
  {
    var c, b := BallotWithTwoDonors();
    outsider := b.Vote(false, OutsiderAddr, Now);
    var first := b.Vote(false, DonorAddr, Now);
    twice := b.Vote(false, DonorAddr, Now);
    firstVoter := b.VoterIndices(0);
    late := b.Vote(false, Donor2Addr, Now + 2 * Day);
  }

  /** With no votes the change is accepted; one reject (the other donor abstaining) or two rejects reject it. */
  method RejectingBallot() returns (noVotes: bool, oneReject: bool, twoRejects: bool)
    ensures noVotes && !oneReject && !twoRejects
  {
    var c, b := BallotWithTwoDonors();
    b.NoVotesAccepts();
    noVotes := b.GetWinningOption();
    var v1 := b.Vote(false, DonorAddr, Now);
    b.AllRejectsLose();
    oneReject := b.GetWinningOption();
    var v2 := b.Vote(false, Donor2Addr, Now);
    b.AllRejectsLose();
    twoRejects := b.GetWinningOption();
  }

  /** Two accepting votes accept the change. */
  method AcceptingBallot() returns (twoAccepts: bool)
    ensures twoAccepts
  {
    var c, b := BallotWithTwoDonors();
    var a1 := b.Vote(true, DonorAddr, Now);
    var a2 := b.Vote(true, Donor2Addr, Now);
    b.AllAcceptsWin();
    twoAccepts := b.GetWinningOption();
  }

  /** An added beneficiary is enumerated, retrievable and valid. */
  method BeneficiaryAdded() returns (addresses: seq<Address>, record: Beneficiary, valid: bool)
    ensures BeneficiaryAddr in addresses
    ensures record == Beneficiary("test", "test", 10000)
    ensures valid
  {
    var c := CampaignWithBeneficiary();
    addresses := c.beneficiaryRepo.GetBeneficiaryAddresses();
    record := c.beneficiaryRepo.GetBeneficiaryByAddress(BeneficiaryAddr);
    valid := c.beneficiaryRepo.IsValidBeneficiary(BeneficiaryAddr);
  }

  /** Direct additions revert on each invalid field: name, reason, amount, address. */
  method BeneficiaryFieldRejections() returns (errors: seq<Error>)
    ensures errors == [NameRequired, ReasonRequired, AmountMustBePositive, AddressRequired]
  {
    var c := CampaignWithBeneficiary();
    var repo := c.beneficiaryRepo;
    var noName := repo.AddBeneficiary("", "test", 10000, Beneficiary2Addr, AuthorAddr);
    var noReason := repo.AddBeneficiary("test", "", 10000, Beneficiary2Addr, AuthorAddr);
    var noAmount := repo.AddBeneficiary("test", "test", 0, Beneficiary2Addr, AuthorAddr);
    var noAddress := repo.AddBeneficiary("test", "test", 10000, ZeroAddress, AuthorAddr);
    errors := [noName.error, noReason.error, noAmount.error, noAddress.error];
  }

  /**
   * Direct additions revert for a non-author (even with a zero address: access
   * is checked first) and once a donation exists.
   */
  method BeneficiaryAccessRejections() returns (notAuthor: Outcome, haveDonors: Outcome)
    ensures notAuthor == Reverted(RestrictedAccess)
    ensures haveDonors == Reverted(AlreadyHaveDonors)
  {
    var c := CampaignWithBeneficiary();
    var repo := c.beneficiaryRepo;
    notAuthor := repo.AddBeneficiary("test", "test", 10000, ZeroAddress, DonorAddr);
    var d := c.Donate(DonorAddr, 1000, Now);
    haveDonors := repo.AddBeneficiary("test", "test", 10000, Beneficiary2Addr, AuthorAddr);
  }

  /**
   * The change-request setup: beneficiary 1 active, one donation made,
   * beneficiary 2 staged, and request 0 = (remove 1, add 2, "test") with a
   * ballot ending the next day.
   */
  method CampaignWithRequest() returns (c: Campaign)
    ensures fresh(c) && fresh(c.beneficiaryRepo) && c.Valid() && c.beneficiaryRepo.Valid()
    ensures c.beneficiaryRepo.campaign == c && c.author == AuthorAddr && c.IsDonor(DonorAddr)
    ensures c.lastNow == Now && c.refunded == {}
    ensures c.beneficiaryRepo.beneficiaries == map[BeneficiaryAddr := Beneficiary("test", "test", 10000)]
    ensures c.beneficiaryRepo.beneficiaryAddresses == [BeneficiaryAddr]
    ensures c.beneficiaryRepo.pendingBeneficiaries == map[Beneficiary2Addr := Beneficiary("test2", "test2", 10000)]
    ensures c.beneficiaryRepo.committed == {} && |c.beneficiaryRepo.changeRequests| == 1
    ensures var req := c.beneficiaryRepo.changeRequests[0];
      && req == ChangeRequest(BeneficiaryAddr, Beneficiary2Addr, "test", req.ballot)
      && fresh(req.ballot) && req.ballot.Valid() && req.ballot.campaign == c
      && req.ballot.endTimestamp == Now + Day && req.ballot.votes == map[] && req.ballot.voterIndices == []
      && req.ballot.lastNow == Now
  {
    c := CampaignWithBeneficiary();
    var repo := c.beneficiaryRepo;
    var d := c.Donate(DonorAddr, 1000, Now);
    var staged := repo.AddPendingBeneficiary("test2", "test2", 10000, Beneficiary2Addr, AuthorAddr);
    var requested := repo.RequestBeneficiaryChange(BeneficiaryAddr, Beneficiary2Addr, "test", Now + Day,
                                                   AuthorAddr, Now);
  }

  /** Staged records and requests (add-and-remove, add-only, remove-only) are stored as given. */
  method RequestsRecorded()
    returns (pending: Beneficiary, both: Option<ChangeRequest>, addOnly: Option<ChangeRequest>,
             removeOnly: Option<ChangeRequest>)
    ensures pending == Beneficiary("test2", "test2", 10000)
    ensures both.Some? && both.value.removeBeneficiary == BeneficiaryAddr
    ensures both.value.addPendingBeneficiary == Beneficiary2Addr && both.value.description == "test"
    ensures addOnly.Some? && addOnly.value.removeBeneficiary == ZeroAddress
    ensures addOnly.value.addPendingBeneficiary == Beneficiary2Addr && addOnly.value.description == "test"
    ensures removeOnly.Some? && removeOnly.value.removeBeneficiary == BeneficiaryAddr
    ensures removeOnly.value.addPendingBeneficiary == ZeroAddress && removeOnly.value.description == "test"
  {
    var c := CampaignWithRequest();
    pending := c.beneficiaryRepo.PendingBeneficiaries(Beneficiary2Addr);
    both := c.beneficiaryRepo.ChangeRequests(0);
    var r1 := c.beneficiaryRepo.RequestBeneficiaryChange(ZeroAddress, Beneficiary2Addr, "test", Now + Day,
                                                         AuthorAddr, Now);
    addOnly := c.beneficiaryRepo.ChangeRequests(1);
    var c2 := CampaignWithRequest();
    var r2 := c2.beneficiaryRepo.RequestBeneficiaryChange(BeneficiaryAddr, ZeroAddress, "test", Now + Day,
                                                          AuthorAddr, Now);
    removeOnly := c2.beneficiaryRepo.ChangeRequests(1);
  }

  /** Requests revert without a description, with a past ballot end, and for non-authors. */
  method RequestRejections()
    returns (noDescription: Outcome, pastEnd: Outcome, stageByOutsider: Outcome, requestByOutsider: Outcome)
    ensures noDescription == Reverted(DescriptionRequired)
    ensures pastEnd == Reverted(BallotEndMustBeInFuture)
    ensures stageByOutsider == Reverted(RestrictedAccess)
    ensures requestByOutsider == Reverted(RestrictedAccess)
  {
    var c := CampaignWithRequest();
    var repo := c.beneficiaryRepo;
    noDescription := repo.RequestBeneficiaryChange(ZeroAddress, Beneficiary2Addr, "", Now + Day, AuthorAddr, Now);
    pastEnd := repo.RequestBeneficiaryChange(ZeroAddress, Beneficiary2Addr, "test", Now - 100, AuthorAddr, Now);
    stageByOutsider := repo.AddPendingBeneficiary("test2", "test2", 10000, Beneficiary2Addr, DonorAddr);
    requestByOutsider := repo.RequestBeneficiaryChange(BeneficiaryAddr, Beneficiary2Addr, "test", Now + Day,
                                                       DonorAddr, Now);
  }

  /** An accepted request, committed after its ballot ended, swaps beneficiary 1 for beneficiary 2. */
  method CommitAccepted() returns (r: Outcome, addresses: seq<Address>)
    ensures r == Done
    ensures Beneficiary2Addr in addresses && BeneficiaryAddr !in addresses
  {
    var c := CampaignWithRequest();
    var repo := c.beneficiaryRepo;
    var d := c.Donate(DonorAddr, 1000, Now);
    repo.changeRequests[0].ballot.NoVotesAccepts();
    ghost var before := repo.Records();
    r := repo.CommitBeneficiaryChange(0, AuthorAddr, Now + 2 * Day);
    ApplyChangeEffect(before, BeneficiaryAddr, Beneficiary2Addr);
    addresses := repo.GetBeneficiaryAddresses();
  }

  /** Commits revert before the ballot ends, after a rejection, and for non-authors. */
  method CommitRejections() returns (early: Outcome, rejected: Outcome, outsider: Outcome)
    ensures early == Reverted(BallotNotFinishedYet)
    ensures rejected == Reverted(DonorsRejectedRequest)
    ensures outsider == Reverted(RestrictedAccess)
  {
    var c := CampaignWithRequest();
    var repo := c.beneficiaryRepo;
    early := repo.CommitBeneficiaryChange(0, AuthorAddr, Now);
    outsider := repo.CommitBeneficiaryChange(0, DonorAddr, Now);
    var ballot := repo.changeRequests[0].ballot;
    var v := ballot.Vote(false, DonorAddr, Now);
    ballot.AllRejectsLose();
    rejected := repo.CommitBeneficiaryChange(0, AuthorAddr, Now + 2 * Day);
  }
}
