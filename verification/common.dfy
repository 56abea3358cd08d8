/**
 * Shared vocabulary of the crowdfunding contracts: account addresses, the
 * named reverts every operation can end in, and the result types that carry
 * them.
 */
module Common {

  /** An account identity: a 160-bit numeric newtype; 0 is the zero address. */
  newtype Address = n: int | 0 <= n < 0x1_0000_0000_0000_0000_0000_0000_0000_0000_0000_0000

  /** The distinguished "no address" value (used for "none" in change requests). */
  const ZeroAddress: Address := 0

  /** Every way an operation of the contracts can revert. */
  datatype Error =
    // construction of a campaign
    | TitleRequired
    | DescriptionRequired
    | TargetAmountMustBePositive
    | EndMustBeInFuture
    | AuthorRequired
    // donations, refunds and payouts
    | Expired
    | Fulfilled
    | InsufficientAmount
    | NotADonor
    | ActiveCampaign
    | Unfulfilled
    | NotABeneficiary
    | AlreadyPaid
    // beneficiary administration and governance
    | RestrictedAccess
    | AlreadyHaveDonors
    | NameRequired
    | ReasonRequired
    | AmountMustBePositive
    | AddressRequired
    | BallotEndMustBeInFuture
    | NoSuchRequest
    | AlreadyCommitted
    | BallotNotFinishedYet
    | DonorsRejectedRequest
    | NotEligibleToVote
    | AlreadyVoted

  datatype Option<T> = None | Some(value: T)

  /** The outcome of an operation that returns nothing: it either completes or reverts. */
  datatype Outcome = Done | Reverted(error: Error)

  /** The outcome of an operation that returns a value (a created object, a paid amount). */
  datatype Result<T> = Ok(value: T) | Err(error: Error)

  /** No element of `s` occurs twice. */
  predicate NoDuplicates<T(==)>(s: seq<T>)
  {
    forall i, j :: 0 <= i < j < |s| ==> s[i] != s[j]
  }

  /** The set of elements of `s`. */
  function Elems<T>(s: seq<T>): set<T>
  {
    set x | x in s
  }

  /** A duplicate-free list has exactly as many entries as distinct elements. */
  lemma {:induction false} DistinctCount<T>(s: seq<T>)
    requires NoDuplicates(s)
    ensures |Elems(s)| == |s|
  {
    if s != [] {
      var init, last := s[..|s| - 1], s[|s| - 1];
      assert NoDuplicates(init);
      DistinctCount(init);
      assert Elems(s) == Elems(init) + {last};
      assert last !in Elems(init);
    }
  }

  /** Appending an element that is not yet present keeps a list duplicate-free. */
  lemma NoDuplicatesAppend<T>(s: seq<T>, x: T)
    requires NoDuplicates(s) && x !in s
    ensures NoDuplicates(s + [x])
  {
  }
}
