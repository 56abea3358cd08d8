/**
 * The vote count of a change ballot, as values: who voted (in cast order),
 * what each voter chose, and the decision rule applied to the tally.
 */
module Tally {
  import opened Common

  /** Every listed voter has a recorded choice. */
  predicate Recorded(voters: seq<Address>, votes: map<Address, bool>)
  {
    forall v :: v in voters ==> v in votes
  }

  /** Number of listed voters whose recorded choice is "accept". */
  function CountAccepts(voters: seq<Address>, votes: map<Address, bool>): nat
    requires Recorded(voters, votes)
  {
    if voters == [] then 0
    else CountAccepts(voters[..|voters| - 1], votes) + (if votes[voters[|voters| - 1]] then 1 else 0)
  }

  /**
   * The ballot's decision from its tally: accept when nobody voted, otherwise
   * accept exactly when accepting votes strictly outnumber rejecting ones among
   * the votes cast (abstentions count for neither side; a tie rejects).
   */
  function Decide(accepts: nat, cast: nat): bool
  {
    cast == 0 || accepts > cast - accepts
  }

  /** The accepting votes never outnumber the votes cast. */
  lemma {:induction false} CountWithinCast(voters: seq<Address>, votes: map<Address, bool>)
    requires Recorded(voters, votes)
    ensures CountAccepts(voters, votes) <= |voters|
  {
    if voters != [] {
      CountWithinCast(voters[..|voters| - 1], votes);
    }
  }

  /** When every voter rejected, nobody is counted as accepting. */
  lemma {:induction false} AllRejectCountsZero(voters: seq<Address>, votes: map<Address, bool>)
    requires Recorded(voters, votes)
    requires forall v :: v in voters ==> !votes[v]
    ensures CountAccepts(voters, votes) == 0
  {
    if voters != [] {
      AllRejectCountsZero(voters[..|voters| - 1], votes);
    }
  }

  /** When every voter accepted, every voter is counted. */
  lemma {:induction false} AllAcceptCountsAll(voters: seq<Address>, votes: map<Address, bool>)
    requires Recorded(voters, votes)
    requires forall v :: v in voters ==> votes[v]
    ensures CountAccepts(voters, votes) == |voters|
  {
    if voters != [] {
      AllAcceptCountsAll(voters[..|voters| - 1], votes);
    }
  }

  /** Forgetting the vote of someone who is not listed does not change the count. */
  lemma {:induction false} CountWithout(voters: seq<Address>, votes: map<Address, bool>, k: Address)
    requires Recorded(voters, votes) && k !in voters
    ensures Recorded(voters, votes - {k})
    ensures CountAccepts(voters, votes - {k}) == CountAccepts(voters, votes)
  {
    if voters != [] {
      CountWithout(voters[..|voters| - 1], votes, k);
    }
  }

  /**
   * A ballot's invariant, peeled off one voter at a time from the end of the
   * cast order: `voters` enumerates the recorded votes, each exactly once, and
   * the running tally (`accepts` of `cast`) agrees with them. TalliedMeans
   * spells it out.
   */
  predicate Tallied(voters: seq<Address>, votes: map<Address, bool>, accepts: nat, cast: nat)
    decreases |voters|
  {
    if voters == [] then votes == map[] && accepts == 0 && cast == 0
    else
      var last := voters[|voters| - 1];
      && last in votes && cast > 0 && (votes[last] ==> accepts > 0)
      && Tallied(voters[..|voters| - 1], votes - {last}, if votes[last] then accepts - 1 else accepts, cast - 1)
  }

  /** A consistent ballot lists each voter once, lists exactly the recorded votes, and counts them right. */
  lemma {:induction false} TalliedMeans(voters: seq<Address>, votes: map<Address, bool>, accepts: nat, cast: nat)
    requires Tallied(voters, votes, accepts, cast)
    ensures NoDuplicates(voters)
    ensures forall a :: a in votes <==> a in voters
    ensures cast == |voters|
    ensures accepts == CountAccepts(voters, votes)
  {
    if voters != [] {
      var init, last := voters[..|voters| - 1], voters[|voters| - 1];
      TalliedMeans(init, votes - {last}, if votes[last] then accepts - 1 else accepts, cast - 1);
      assert voters == init + [last];
      CountWithout(init, votes, last);
    }
  }

  /** Recording a first vote of `k` and bumping the tally keeps the ballot consistent. */
  lemma CastKeepsTallied(voters: seq<Address>, votes: map<Address, bool>, accepts: nat, cast: nat,
                         k: Address, c: bool)
    requires Tallied(voters, votes, accepts, cast) && k !in votes
    ensures Tallied(voters + [k], votes[k := c], if c then accepts + 1 else accepts, cast + 1)
  {
    var voters' := voters + [k];
    assert voters'[..|voters'| - 1] == voters;
    assert votes[k := c] - {k} == votes;
  }

  /** At least one vote cast, all of them rejections: the ballot rejects. */
  lemma AllRejectLoses(voters: seq<Address>, votes: map<Address, bool>)
    requires Recorded(voters, votes) && |voters| > 0
    requires forall v :: v in voters ==> !votes[v]
    ensures !Decide(CountAccepts(voters, votes), |voters|)
  {
    AllRejectCountsZero(voters, votes);
  }

  /** Every cast vote an acceptance (or none cast): the ballot accepts. */
  lemma AllAcceptWins(voters: seq<Address>, votes: map<Address, bool>)
    requires Recorded(voters, votes)
    requires forall v :: v in voters ==> votes[v]
    ensures Decide(CountAccepts(voters, votes), |voters|)
  {
    AllAcceptCountsAll(voters, votes);
  }
}
