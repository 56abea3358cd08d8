/**
 * The three cooperating contracts of a campaign:
 *   - Campaign: the fund ledger and its donate / refund / payout lifecycle;
 *   - BeneficiaryRepository: active and pending beneficiaries, and the queue of
 *     change requests that need a donor vote once donations exist;
 *   - ChangeBallot: the time-boxed, donor-only vote on one change request.
 * The caller's address, the current time and the value sent with a call are
 * explicit parameters; a transfer of funds is the amount an operation returns.
 * A revert is a `Reverted`/`Err` result that leaves every field as it was,
 * except the ghost clock `lastNow`, which moves to the time of the call.
 */
module Charity {
  import opened Common
  import opened Ledger
  import opened Tally
  import opened Registry

  /**
   * Validation of the campaign constructor's arguments, reporting the first
   * failure in the order title, description, target, end, author (the suite
   * exercises each failure alone, so this order is assumed).
   */
  function CampaignParamsError(title: string, description: string, targetAmount: nat,
                               endTimestamp: nat, author: Address, now: nat): (r: Option<Error>)
    ensures r == None <==>
      |title| > 0 && |description| > 0 && targetAmount > 0 && endTimestamp > now && author != ZeroAddress
    ensures r == Some(TitleRequired) <==> |title| == 0
    ensures r == Some(DescriptionRequired) <==> |title| > 0 && |description| == 0
    ensures r == Some(TargetAmountMustBePositive) <==>
      |title| > 0 && |description| > 0 && targetAmount == 0
    ensures r == Some(EndMustBeInFuture) <==>
      |title| > 0 && |description| > 0 && targetAmount > 0 && endTimestamp <= now
    ensures r == Some(AuthorRequired) <==>
      |title| > 0 && |description| > 0 && targetAmount > 0 && endTimestamp > now && author == ZeroAddress
  {
    if |title| == 0 then Some(TitleRequired)
    else if |description| == 0 then Some(DescriptionRequired)
    else if targetAmount == 0 then Some(TargetAmountMustBePositive)
    else if endTimestamp <= now then Some(EndMustBeInFuture)
    else if author == ZeroAddress then Some(AuthorRequired)
    else None
  }

  class Campaign {
    const title: string
    const description: string
    const targetAmount: nat
    const endTimestamp: nat
    const author: Address
    /** The beneficiary repository created together with this campaign. */
    var beneficiaryRepo: BeneficiaryRepository?
    /** Cumulative amount donated per address (zeroed by a refund). */
    var donorsAmounts: map<Address, nat>
    /** Every address that ever donated, in order of its first donation. */
    var donors: seq<Address>
    /** Sum of all recorded donor amounts. */
    var totalDonated: nat
    /** Beneficiaries that have already received their payout. */
    var paidBeneficiaries: set<Address>
    /** The latest block time at which the campaign was called; block time never decreases. */
    ghost var lastNow: nat
    /** Donors that have been refunded. */
    ghost var refunded: set<Address>
    /** Every accepted donation, in order. */
    ghost var donations: seq<Donation>

    /**
     * The campaign's invariant: the constructor's validations hold for good, the
     * repository points back at this campaign, `donors` lists every ledger entry
     * once, and `totalDonated` is the sum of the ledger. Each entry is the sum
     * of its donor's accepted donations until the donor is refunded. Refunds
     * happen only once the campaign has ended, and a refunded donor's entry
     * stays zero for good.
     */
    ghost predicate Valid()
      reads this
    {
      && |title| > 0 && |description| > 0 && targetAmount > 0 && author != ZeroAddress
      && beneficiaryRepo != null && beneficiaryRepo.campaign == this
      && Consistent(donors, donorsAmounts, totalDonated)
      && (refunded != {} ==> lastNow >= endTimestamp)
      && (forall a :: a in refunded ==> AmountOf(donorsAmounts, a) == 0)
      && Logged(donorsAmounts, donations, refunded)
    }

    constructor (title: string, description: string, targetAmount: nat, endTimestamp: nat,
                 author: Address, now: nat)
      requires CampaignParamsError(title, description, targetAmount, endTimestamp, author, now) == None
      ensures Valid() && fresh(beneficiaryRepo)
      ensures this.title == title && this.description == description
      ensures this.targetAmount == targetAmount && this.endTimestamp == endTimestamp
      ensures this.author == author
      ensures donorsAmounts == map[] && donors == [] && totalDonated == 0 && paidBeneficiaries == {}
      ensures lastNow == now && refunded == {} && donations == []
      ensures beneficiaryRepo.Valid() && beneficiaryRepo.Records() == EmptyRoster
      ensures beneficiaryRepo.changeRequests == [] && beneficiaryRepo.committed == {}
    {
      this.title := title;
      this.description := description;
      this.targetAmount := targetAmount;
      this.endTimestamp := endTimestamp;
      this.author := author;
      donorsAmounts := map[];
      donors := [];
      totalDonated := 0;
      paidBeneficiaries := {};
      lastNow := now;
      refunded := {};
      donations := [];
      beneficiaryRepo := null;
      new;
      beneficiaryRepo := new BeneficiaryRepository(this);
    }

    /** Deploying a campaign: reverts with the first failed validation, else a new campaign. */
    static method Create(title: string, description: string, targetAmount: nat, endTimestamp: nat,
                         author: Address, now: nat) returns (r: Result<Campaign>)
      ensures r.Err? <==> CampaignParamsError(title, description, targetAmount, endTimestamp, author, now).Some?
      ensures r.Err? ==>
        CampaignParamsError(title, description, targetAmount, endTimestamp, author, now) == Some(r.error)
      ensures r.Ok? ==> fresh(r.value) && r.value.Valid()
      ensures r.Ok? ==> r.value.title == title && r.value.description == description
      ensures r.Ok? ==> r.value.targetAmount == targetAmount && r.value.endTimestamp == endTimestamp
      ensures r.Ok? ==> r.value.author == author && r.value.donors == [] && r.value.totalDonated == 0
      ensures r.Ok? ==> r.value.donorsAmounts == map[] && r.value.paidBeneficiaries == {}
      ensures r.Ok? ==> r.value.lastNow == now && r.value.refunded == {} && r.value.donations == []
      ensures r.Ok? ==> fresh(r.value.beneficiaryRepo) && r.value.beneficiaryRepo.Valid()
      ensures r.Ok? ==> r.value.beneficiaryRepo.Records() == EmptyRoster
      ensures r.Ok? ==> r.value.beneficiaryRepo.changeRequests == [] && r.value.beneficiaryRepo.committed == {}
    {
      var check := CampaignParamsError(title, description, targetAmount, endTimestamp, author, now);
      if check.Some? {
        return Err(check.value);
      }
      var c := new Campaign(title, description, targetAmount, endTimestamp, author, now);
      r := Ok(c);
    }

    /** The target has been reached. */
    predicate IsFulfilled()
      reads this
    {
      totalDonated >= targetAmount
    }

    /** `a` currently has a positive donation on record; every donor is counted among the donors. */
    predicate IsDonor(a: Address)
      reads this
      ensures IsDonor(a) ==> a in donorsAmounts && donorsAmounts[a] > 0
      ensures Valid() && IsDonor(a) ==> a in donors
    {
      LedgerListsEntries();
      AmountOf(donorsAmounts, a) > 0
    }

    /** In a valid campaign the donor list holds exactly the addresses with a ledger entry. */
    lemma LedgerListsEntries()
      ensures Valid() ==> forall a :: a in donorsAmounts <==> a in donors
    {
      if Valid() {
        ConsistentMeans(donors, donorsAmounts, totalDonated);
      }
    }

    /** The number of distinct addresses that ever donated. */
    function GetDonorsCount(): (n: nat)
      requires Valid()
      reads this
      ensures n == |donorsAmounts.Keys|
    {
      DonorCount(donors, donorsAmounts, totalDonated);
      |donors|
    }

    /**
     * Donating `value` as `caller` at time `now`: reverts once the campaign has
     * ended, once the target is reached, or for a zero amount; otherwise adds the
     * amount to the caller's entry (listing the caller on a first donation).
     */
    method Donate(caller: Address, value: nat, now: nat) returns (r: Outcome)
      requires Valid() && now >= lastNow
      modifies this`donorsAmounts, this`donors, this`totalDonated, this`lastNow, this`donations
      ensures Valid() && lastNow == now
      ensures now >= endTimestamp ==> r == Reverted(Expired)
      ensures now < endTimestamp && old(IsFulfilled()) ==> r == Reverted(Fulfilled)
      ensures now < endTimestamp && !old(IsFulfilled()) && value == 0 ==> r == Reverted(InsufficientAmount)
      ensures now < endTimestamp && !old(IsFulfilled()) && value > 0 ==> r == Done
      ensures old(refunded) != {} ==> r == Reverted(Expired)
      ensures r.Reverted? ==>
        donorsAmounts == old(donorsAmounts) && donors == old(donors) && totalDonated == old(totalDonated)
      ensures r.Done? ==>
        && donorsAmounts == old(donorsAmounts)[caller := AmountOf(old(donorsAmounts), caller) + value]
        && donors == Enrol(old(donors), old(donorsAmounts), caller)
        && totalDonated == old(totalDonated) + value
        && IsDonor(caller)
      ensures donations == if r.Done? then old(donations) + [Donation(caller, value)] else old(donations)
    {
      lastNow := now;
      if now >= endTimestamp {
        return Reverted(Expired);
      }
      if IsFulfilled() {
        return Reverted(Fulfilled);
      }
      if value == 0 {
        return Reverted(InsufficientAmount);
      }
      CreditKeepsConsistent(donors, donorsAmounts, totalDonated, caller, value);
      CreditKeepsLogged(donorsAmounts, donations, refunded, caller, value);
      donations := donations + [Donation(caller, value)];
      donors := Enrol(donors, donorsAmounts, caller);
      donorsAmounts := donorsAmounts[caller := AmountOf(donorsAmounts, caller) + value];
      totalDonated := totalDonated + value;
      r := Done;
    }

    /**
     * A donor reclaiming its donation after an unsuccessful campaign: reverts for
     * a non-donor, before the end, or when the target was reached; otherwise pays
     * back exactly the recorded amount and zeroes the entry.
     */
    method ClaimRefund(caller: Address, now: nat) returns (r: Result<nat>)
      requires Valid() && now >= lastNow
      modifies this`donorsAmounts, this`totalDonated, this`lastNow, this`refunded
      ensures Valid() && lastNow == now
      ensures !old(IsDonor(caller)) ==> r == Err(NotADonor)
      ensures old(IsDonor(caller)) && now < endTimestamp ==> r == Err(ActiveCampaign)
      ensures old(IsDonor(caller)) && now >= endTimestamp && old(IsFulfilled()) ==> r == Err(Fulfilled)
      ensures old(IsDonor(caller)) && now >= endTimestamp && !old(IsFulfilled()) ==>
        r == Ok(AmountOf(old(donorsAmounts), caller))
      ensures refunded == if r.Ok? then old(refunded) + {caller} else old(refunded)
      ensures r.Err? ==> donorsAmounts == old(donorsAmounts) && totalDonated == old(totalDonated)
      ensures r.Ok? ==>
        && donorsAmounts == old(donorsAmounts)[caller := 0]
        && totalDonated == old(totalDonated) - r.value
        && !IsDonor(caller)
    {
      lastNow := now;
      if !IsDonor(caller) {
        return Err(NotADonor);
      }
      if now < endTimestamp {
        return Err(ActiveCampaign);
      }
      if IsFulfilled() {
        return Err(Fulfilled);
      }
      var amount := donorsAmounts[caller];
      RewriteKeepsConsistent(donors, donorsAmounts, totalDonated, caller, 0);
      donorsAmounts := donorsAmounts[caller := 0];
      totalDonated := totalDonated - amount;
      refunded := refunded + {caller};
      r := Ok(amount);
    }

    /**
     * A beneficiary claiming its payout: reverts for an address that is not an
     * active beneficiary (checked first, whatever the donations), while the
     * target is not reached, and for a beneficiary already paid; otherwise pays
     * exactly the beneficiary's recorded amount.
     */
    method ClaimFunds(caller: Address) returns (r: Result<nat>)
      requires Valid() && beneficiaryRepo.Valid()
      modifies this`paidBeneficiaries
      ensures Valid()
      ensures !beneficiaryRepo.IsValidBeneficiary(caller) ==> r == Err(NotABeneficiary)
      ensures beneficiaryRepo.IsValidBeneficiary(caller) && !IsFulfilled() ==> r == Err(Unfulfilled)
      ensures beneficiaryRepo.IsValidBeneficiary(caller) && IsFulfilled() ==>
        if caller in old(paidBeneficiaries) then r == Err(AlreadyPaid)
        else r == Ok(beneficiaryRepo.GetBeneficiaryByAddress(caller).amount)
      ensures r.Ok? ==> r.value > 0
      ensures paidBeneficiaries == if r.Ok? then old(paidBeneficiaries) + {caller} else old(paidBeneficiaries)
    {
      if !beneficiaryRepo.IsValidBeneficiary(caller) {
        return Err(NotABeneficiary);
      }
      if !IsFulfilled() {
        return Err(Unfulfilled);
      }
      if caller in paidBeneficiaries {
        return Err(AlreadyPaid);
      }
      var record := beneficiaryRepo.GetBeneficiaryByAddress(caller);
      paidBeneficiaries := paidBeneficiaries + {caller};
      r := Ok(record.amount);
    }

    /** A donor's entry is part of the campaign total, so a refund never exceeds it. */
    lemma EntryWithinTotalDonated(a: Address)
      requires Valid()
      ensures AmountOf(donorsAmounts, a) <= totalDonated
    {
      if a in donorsAmounts {
        EntryWithinTotal(donors, donorsAmounts, totalDonated, a);
      }
    }

    /**
     * The donation getter: an address not refunded has on record exactly the sum
     * of its accepted donations (0 if it never gave); a refunded one has 0.
     */
    lemma AmountIsDonationSum(a: Address)
      requires Valid()
      ensures a !in refunded ==> AmountOf(donorsAmounts, a) == SumFor(donations, a)
      ensures a in refunded ==> AmountOf(donorsAmounts, a) == 0
    {
    }

    /**
     * A refund is final: a refunded address is no longer a donor, so it can
     * neither vote nor claim again, and no donation is accepted any more.
     */
    lemma RefundIsFinal(a: Address, now: nat)
      requires Valid() && a in refunded && now >= lastNow
      ensures !IsDonor(a)
      ensures now >= endTimestamp
    {
    }
  }

  /** One proposed beneficiary change, with the ballot that decides it. */
  datatype ChangeRequest = ChangeRequest(
    removeBeneficiary: Address,
    addPendingBeneficiary: Address,
    description: string,
    ballot: ChangeBallot)

  class BeneficiaryRepository {
    /** The campaign this repository belongs to (its author and donors). */
    const campaign: Campaign
    var beneficiaries: map<Address, Beneficiary>
    var beneficiaryAddresses: seq<Address>
    var pendingBeneficiaries: map<Address, Beneficiary>
    /** Append-only list of change requests, indexed by creation order. */
    var changeRequests: seq<ChangeRequest>
    /** Indices of the change requests already committed. */
    var committed: set<nat>

    /** The beneficiary records as one value. */
    function Records(): Roster
      reads this
    {
      Roster(beneficiaries, beneficiaryAddresses, pendingBeneficiaries)
    }

    /**
     * The repository's invariant: the records are consistent, committed indices
     * name existing requests, and every request has a description and a ballot
     * over this repository's campaign.
     */
    ghost predicate Valid()
      reads this
    {
      && RosterValid(Records())
      && (forall i :: i in committed ==> i < |changeRequests|)
      && (forall i :: 0 <= i < |changeRequests| ==>
            |changeRequests[i].description| > 0 && changeRequests[i].ballot.campaign == campaign)
    }

    constructor (campaign: Campaign)
      ensures Valid() && this.campaign == campaign
      ensures Records() == EmptyRoster && changeRequests == [] && committed == {}
    {
      this.campaign := campaign;
      beneficiaries := map[];
      beneficiaryAddresses := [];
      pendingBeneficiaries := map[];
      changeRequests := [];
      committed := {};
    }

    /** `a` is an active (payable) beneficiary. */
    function IsValidBeneficiary(a: Address): (valid: bool)
      requires Valid()
      reads this
      ensures valid <==> a in beneficiaryAddresses
    {
      a in beneficiaries
    }

    /** The active beneficiaries, each once, in the order they became active. */
    function GetBeneficiaryAddresses(): (addrs: seq<Address>)
      requires Valid()
      reads this
      ensures NoDuplicates(addrs)
      ensures forall a :: a in addrs <==> IsValidBeneficiary(a)
    {
      beneficiaryAddresses
    }

    /** The record of an active beneficiary; the all-empty record for any other address. */
    function GetBeneficiaryByAddress(a: Address): (b: Beneficiary)
      requires Valid()
      reads this
      ensures IsValidBeneficiary(a) ==> WellFormed(b) && b == beneficiaries[a]
      ensures !IsValidBeneficiary(a) ==> b == NoRecord
    {
      if a in beneficiaries then beneficiaries[a] else NoRecord
    }

    /** The staged record of `a`; the all-empty record when nothing is staged. */
    function PendingBeneficiaries(a: Address): (b: Beneficiary)
      requires Valid()
      reads this
      ensures a in pendingBeneficiaries ==> WellFormed(b) && b == pendingBeneficiaries[a]
      ensures a !in pendingBeneficiaries ==> b == NoRecord
    {
      if a in pendingBeneficiaries then pendingBeneficiaries[a] else NoRecord
    }

    /** The change request at `index`; none past the end of the list. */
    function ChangeRequests(index: nat): (req: Option<ChangeRequest>)
      requires Valid()
      reads this
      ensures req.Some? <==> index < |changeRequests|
      ensures req.Some? ==> req.value == changeRequests[index] && |req.value.description| > 0
    {
      if index < |changeRequests| then Some(changeRequests[index]) else None
    }

    /**
     * Direct addition of an active beneficiary: author only, refused once the
     * campaign has any donor, then field validation; the record becomes
     * retrievable and its address enumerable.
     */
    method AddBeneficiary(name: string, reason: string, amount: nat, addr: Address, caller: Address)
      returns (r: Outcome)
      requires Valid() && campaign.Valid()
      modifies this`beneficiaries, this`beneficiaryAddresses
      ensures Valid()
      ensures caller != campaign.author ==> r == Reverted(RestrictedAccess)
      ensures caller == campaign.author && campaign.GetDonorsCount() > 0 ==> r == Reverted(AlreadyHaveDonors)
      ensures caller == campaign.author && campaign.GetDonorsCount() == 0 ==>
        match FieldError(name, reason, amount, addr)
        case Some(e) => r == Reverted(e)
        case None => r == Done
      ensures Records() ==
        if r.Done? then AddActive(old(Records()), addr, Beneficiary(name, reason, amount)) else old(Records())
      ensures r.Done? ==>
        IsValidBeneficiary(addr) && GetBeneficiaryByAddress(addr) == Beneficiary(name, reason, amount)
    {
      if caller != campaign.author {
        return Reverted(RestrictedAccess);
      }
      if campaign.GetDonorsCount() > 0 {
        return Reverted(AlreadyHaveDonors);
      }
      var invalid := FieldError(name, reason, amount, addr);
      if invalid.Some? {
        return Reverted(invalid.value);
      }
      var record := Beneficiary(name, reason, amount);
      AddActiveEffect(Records(), addr, record);
      if addr !in beneficiaries {
        beneficiaryAddresses := beneficiaryAddresses + [addr];
      }
      beneficiaries := beneficiaries[addr := record];
      r := Done;
    }

    /**
     * Staging a beneficiary for a later change request: author only, field
     * validation, allowed whatever the donors; nothing becomes payable.
     */
    method AddPendingBeneficiary(name: string, reason: string, amount: nat, addr: Address, caller: Address)
      returns (r: Outcome)
      requires Valid()
      modifies this`pendingBeneficiaries
      ensures Valid()
      ensures caller != campaign.author ==> r == Reverted(RestrictedAccess)
      ensures caller == campaign.author ==>
        match FieldError(name, reason, amount, addr)
        case Some(e) => r == Reverted(e)
        case None => r == Done
      ensures Records() ==
        if r.Done? then Stage(old(Records()), addr, Beneficiary(name, reason, amount)) else old(Records())
    {
      if caller != campaign.author {
        return Reverted(RestrictedAccess);
      }
      var invalid := FieldError(name, reason, amount, addr);
      if invalid.Some? {
        return Reverted(invalid.value);
      }
      StageEffect(Records(), addr, Beneficiary(name, reason, amount));
      pendingBeneficiaries := pendingBeneficiaries[addr := Beneficiary(name, reason, amount)];
      r := Done;
    }

    /**
     * Proposing a change (either address may be the zero address): author only,
     * a description is required and the ballot must end in the future; appends
     * the request with a new, empty ballot at the next index.
     */
    method RequestBeneficiaryChange(remove: Address, add: Address, description: string,
                                    ballotEnd: nat, caller: Address, now: nat) returns (r: Outcome)
      requires Valid()
      modifies this`changeRequests
      ensures Valid()
      ensures caller != campaign.author ==> r == Reverted(RestrictedAccess)
      ensures caller == campaign.author && |description| == 0 ==> r == Reverted(DescriptionRequired)
      ensures caller == campaign.author && |description| > 0 && ballotEnd <= now ==>
        r == Reverted(BallotEndMustBeInFuture)
      ensures caller == campaign.author && |description| > 0 && ballotEnd > now ==> r == Done
      ensures r.Reverted? ==> changeRequests == old(changeRequests)
      ensures r.Done? ==>
        && |changeRequests| == |old(changeRequests)| + 1
        && changeRequests[..|old(changeRequests)|] == old(changeRequests)
        && var req := changeRequests[|old(changeRequests)|];
        && req.removeBeneficiary == remove && req.addPendingBeneficiary == add
        && req.description == description
        && fresh(req.ballot) && req.ballot.Valid()
        && req.ballot.endTimestamp == ballotEnd && req.ballot.campaign == campaign
        && req.ballot.voterIndices == [] && req.ballot.votes == map[] && req.ballot.lastNow == now
    {
      if caller != campaign.author {
        return Reverted(RestrictedAccess);
      }
      if |description| == 0 {
        return Reverted(DescriptionRequired);
      }
      if ballotEnd <= now {
        return Reverted(BallotEndMustBeInFuture);
      }
      var ballot := new ChangeBallot(ballotEnd, campaign, now);
      changeRequests := changeRequests + [ChangeRequest(remove, add, description, ballot)];
      r := Done;
    }

    /**
     * Applying an accepted request: author only; the request must exist and not
     * be committed yet, its ballot must have ended and accepted. Then `remove`
     * leaves the active beneficiaries and the staged `add` joins them.
     */
    method CommitBeneficiaryChange(index: nat, caller: Address, now: nat) returns (r: Outcome)
      requires Valid()
      modifies this`beneficiaries, this`beneficiaryAddresses, this`pendingBeneficiaries, this`committed
      ensures Valid()
      ensures caller != campaign.author ==> r == Reverted(RestrictedAccess)
      ensures caller == campaign.author && index >= |changeRequests| ==> r == Reverted(NoSuchRequest)
      ensures caller == campaign.author && index < |changeRequests| && index in old(committed) ==>
        r == Reverted(AlreadyCommitted)
      ensures caller == campaign.author && index < |changeRequests| && index !in old(committed) ==>
        var ballot := changeRequests[index].ballot;
        r == (if now < ballot.endTimestamp then Reverted(BallotNotFinishedYet)
              else if !ballot.GetWinningOption() then Reverted(DonorsRejectedRequest)
              else Done)
      ensures r.Reverted? ==> Records() == old(Records()) && committed == old(committed)
      ensures r.Done? ==>
        && Records() == ApplyChange(old(Records()),
                                    changeRequests[index].removeBeneficiary,
                                    changeRequests[index].addPendingBeneficiary)
        && committed == old(committed) + {index}
    {
      if caller != campaign.author {
        return Reverted(RestrictedAccess);
      }
      if index >= |changeRequests| {
        return Reverted(NoSuchRequest);
      }
      if index in committed {
        return Reverted(AlreadyCommitted);
      }
      var request := changeRequests[index];
      if now < request.ballot.endTimestamp {
        return Reverted(BallotNotFinishedYet);
      }
      if !request.ballot.GetWinningOption() {
        return Reverted(DonorsRejectedRequest);
      }
      var after := ApplyChange(Records(), request.removeBeneficiary, request.addPendingBeneficiary);
      ApplyChangeValid(Records(), request.removeBeneficiary, request.addPendingBeneficiary);
      beneficiaries, beneficiaryAddresses, pendingBeneficiaries := after.active, after.addresses, after.pending;
      committed := committed + {index};
      r := Done;
    }
  }

  class ChangeBallot {
    const endTimestamp: nat
    /** The campaign whose donors may vote. */
    const campaign: Campaign
    /** The choice of every address that voted (true accepts the change). */
    var votes: map<Address, bool>
    /** The voters in the order their votes were cast. */
    var voterIndices: seq<Address>
    /** Running tally: accepting votes and all votes cast. */
    var acceptCount: nat
    var voteCount: nat
    /** The latest block time at which the ballot was called; block time never decreases. */
    ghost var lastNow: nat

    /** Each voter is listed once, and the running tally agrees with the recorded votes. */
    ghost predicate Valid()
      reads this
    {
      Tallied(voterIndices, votes, acceptCount, voteCount)
    }

    constructor (endTimestamp: nat, campaign: Campaign, now: nat)
      ensures Valid() && this.endTimestamp == endTimestamp && this.campaign == campaign
      ensures votes == map[] && voterIndices == [] && acceptCount == 0 && voteCount == 0
      ensures lastNow == now
    {
      this.endTimestamp := endTimestamp;
      this.campaign := campaign;
      lastNow := now;
      votes := map[];
      voterIndices := [];
      acceptCount := 0;
      voteCount := 0;
    }

    /** The voter who cast the vote at position `index`; none past the end. */
    function VoterIndices(index: nat): (voter: Option<Address>)
      requires Valid()
      reads this
      ensures voter.Some? <==> index < |voterIndices|
      ensures voter.Some? ==> voter.value == voterIndices[index] && voter.value in votes
    {
      TalliedMeans(voterIndices, votes, acceptCount, voteCount);
      if index < |voterIndices| then Some(voterIndices[index]) else None
    }

    /**
     * A donor's vote: only current donors of the campaign, only once each, and
     * only before the ballot ends; the voter is appended to the cast order.
     */
    method Vote(choice: bool, caller: Address, now: nat) returns (r: Outcome)
      requires Valid() && now >= lastNow
      modifies this`votes, this`voterIndices, this`acceptCount, this`voteCount, this`lastNow
      ensures Valid() && lastNow == now
      ensures old(lastNow) >= endTimestamp ==> r.Reverted?
      ensures !campaign.IsDonor(caller) ==> r == Reverted(NotEligibleToVote)
      ensures campaign.IsDonor(caller) && caller in old(votes) ==> r == Reverted(AlreadyVoted)
      ensures campaign.IsDonor(caller) && caller !in old(votes) && now >= endTimestamp ==> r == Reverted(Expired)
      ensures campaign.IsDonor(caller) && caller !in old(votes) && now < endTimestamp ==> r == Done
      ensures r.Reverted? ==> votes == old(votes) && voterIndices == old(voterIndices)
      ensures r.Done? ==> votes == old(votes)[caller := choice] && voterIndices == old(voterIndices) + [caller]
    {
      lastNow := now;
      if !campaign.IsDonor(caller) {
        return Reverted(NotEligibleToVote);
      }
      if caller in votes {
        return Reverted(AlreadyVoted);
      }
      if now >= endTimestamp {
        return Reverted(Expired);
      }
      CastKeepsTallied(voterIndices, votes, acceptCount, voteCount, caller, choice);
      votes := votes[caller := choice];
      voterIndices := voterIndices + [caller];
      voteCount := voteCount + 1;
      if choice {
        acceptCount := acceptCount + 1;
      }
      r := Done;
    }

    /**
     * The ballot's current decision, from the running tally: accept when nobody
     * voted or when more than half of the cast votes accept.
     */
    function GetWinningOption(): (accept: bool)
      reads this
      ensures Valid() ==> Recorded(voterIndices, votes)
      ensures Valid() ==> (accept <==> |voterIndices| == 0 || 2 * CountAccepts(voterIndices, votes) > |voterIndices|)
    {
      TallyCounts();
      Decide(acceptCount, voteCount)
    }

    /** In a valid ballot the running tally counts the recorded votes. */
    lemma TallyCounts()
      ensures Valid() ==>
        && Recorded(voterIndices, votes)
        && acceptCount == CountAccepts(voterIndices, votes) <= voteCount == |voterIndices|
    {
      if Valid() {
        TalliedMeans(voterIndices, votes, acceptCount, voteCount);
        CountWithinCast(voterIndices, votes);
      }
    }

    /** With no votes cast the change is accepted. */
    lemma NoVotesAccepts()
      requires Valid() && voterIndices == []
      ensures GetWinningOption()
    {
    }

    /** If every cast vote rejects (whoever abstains), the change is rejected. */
    lemma AllRejectsLose()
      requires Valid() && |voterIndices| > 0
      requires forall a :: a in votes ==> !votes[a]
      ensures !GetWinningOption()
    {
      TalliedMeans(voterIndices, votes, acceptCount, voteCount);
      AllRejectLoses(voterIndices, votes);
    }

    /** If every cast vote accepts, the change is accepted. */
    lemma AllAcceptsWin()
      requires Valid()
      requires forall a :: a in votes ==> votes[a]
      ensures GetWinningOption()
    {
      TalliedMeans(voterIndices, votes, acceptCount, voteCount);
      AllAcceptWins(voterIndices, votes);
    }
  }
}
