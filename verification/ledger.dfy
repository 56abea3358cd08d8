/**
 * The donation ledger of a campaign, as values: the per-donor amounts
 * (`donorsAmounts`), the list of addresses that ever donated, and the total
 * those amounts add up to.
 */
module Ledger {
  import opened Common

  /** The amount recorded for `a`; an address never seen reads as 0. */
  function AmountOf(amounts: map<Address, nat>, a: Address): (n: nat)
    ensures a in amounts ==> n == amounts[a]
    ensures a !in amounts ==> n == 0
  {
    if a in amounts then amounts[a] else 0
  }

  /** One accepted donation: who gave and how much. */
  datatype Donation = Donation(donor: Address, amount: nat)

  /** What `a` gave in total across a log of accepted donations (the reference for a ledger entry). */
  function SumFor(log: seq<Donation>, a: Address): nat
  {
    if log == [] then 0
    else
      var last := log[|log| - 1];
      SumFor(log[..|log| - 1], a) + (if last.donor == a then last.amount else 0)
  }

  /** Every address outside `excluded` has exactly the sum of its logged donations on record. */
  ghost predicate Logged(amounts: map<Address, nat>, log: seq<Donation>, excluded: set<Address>)
  {
    forall a :: a !in excluded ==> AmountOf(amounts, a) == SumFor(log, a)
  }

  /** Crediting `v` to `a` and logging that donation keeps every entry equal to its donor's sum. */
  lemma CreditKeepsLogged(amounts: map<Address, nat>, log: seq<Donation>, excluded: set<Address>,
                          a: Address, v: nat)
    requires Logged(amounts, log, excluded) && a !in excluded
    ensures Logged(amounts[a := AmountOf(amounts, a) + v], log + [Donation(a, v)], excluded)
  {
  }

  /** Every listed donor has a ledger entry. */
  predicate Covers(donors: seq<Address>, amounts: map<Address, nat>)
  {
    forall d :: d in donors ==> d in amounts
  }

  /** Sum of the recorded amounts of the listed donors (the reference definition of the total). */
  function Total(donors: seq<Address>, amounts: map<Address, nat>): nat
    requires Covers(donors, amounts)
  {
    if donors == [] then 0
    else Total(donors[..|donors| - 1], amounts) + amounts[donors[|donors| - 1]]
  }

  /** Dropping the entry of an address that is not listed leaves the total alone. */
  lemma {:induction false} TotalWithout(donors: seq<Address>, amounts: map<Address, nat>, k: Address)
    requires Covers(donors, amounts) && k !in donors
    ensures Covers(donors, amounts - {k})
    ensures Total(donors, amounts - {k}) == Total(donors, amounts)
  {
    if donors != [] {
      TotalWithout(donors[..|donors| - 1], amounts, k);
    }
  }

  /**
   * The ledger's invariant, peeled off one donor at a time from the end of the
   * list: `donors` enumerates the entries of `amounts`, each exactly once, and
   * `total` is their sum. ConsistentMeans spells it out as those three facts.
   */
  predicate Consistent(donors: seq<Address>, amounts: map<Address, nat>, total: nat)
    decreases |donors|
  {
    if donors == [] then amounts == map[] && total == 0
    else
      var last := donors[|donors| - 1];
      && last in amounts && amounts[last] <= total
      && Consistent(donors[..|donors| - 1], amounts - {last}, total - amounts[last])
  }

  /** A consistent ledger lists each donor once, lists exactly the entries, and sums to `total`. */
  lemma {:induction false} ConsistentMeans(donors: seq<Address>, amounts: map<Address, nat>, total: nat)
    requires Consistent(donors, amounts, total)
    ensures NoDuplicates(donors)
    ensures forall a :: a in amounts <==> a in donors
    ensures total == Total(donors, amounts)
  {
    if donors != [] {
      var init, last := donors[..|donors| - 1], donors[|donors| - 1];
      ConsistentMeans(init, amounts - {last}, total - amounts[last]);
      assert donors == init + [last];
      TotalWithout(init, amounts, last);
    }
  }

  /** A consistent ledger has exactly one listed donor per entry. */
  lemma DonorCount(donors: seq<Address>, amounts: map<Address, nat>, total: nat)
    requires Consistent(donors, amounts, total)
    ensures |amounts.Keys| == |donors|
  {
    ConsistentMeans(donors, amounts, total);
    DistinctCount(donors);
    assert amounts.Keys == Elems(donors);
  }

  /** No single donor's entry exceeds the total. */
  lemma {:induction false} EntryWithinTotal(donors: seq<Address>, amounts: map<Address, nat>, total: nat,
                                            a: Address)
    requires Consistent(donors, amounts, total) && a in amounts
    ensures amounts[a] <= total
  {
    if donors != [] {
      var init, last := donors[..|donors| - 1], donors[|donors| - 1];
      if last != a {
        EntryWithinTotal(init, amounts - {last}, total - amounts[last], a);
      }
    }
  }

  /** The donor list after a donation by `a`: `a` is appended on its first donation. */
  function Enrol(donors: seq<Address>, amounts: map<Address, nat>, a: Address): seq<Address>
  {
    if a in amounts then donors else donors + [a]
  }

  /** Rewriting the entry of a listed donor to `v` keeps the ledger consistent; the total shifts by the difference. */
  lemma {:induction false} RewriteKeepsConsistent(donors: seq<Address>, amounts: map<Address, nat>, total: nat,
                                                  a: Address, v: nat)
    requires Consistent(donors, amounts, total) && a in amounts
    ensures amounts[a] <= total
    ensures Consistent(donors, amounts[a := v], total - amounts[a] + v)
  {
    EntryWithinTotal(donors, amounts, total, a);
    if donors != [] {
      var init, last := donors[..|donors| - 1], donors[|donors| - 1];
      if last == a {
        assert amounts[a := v] - {last} == amounts - {last};
      } else {
        var rest := amounts - {last};
        RewriteKeepsConsistent(init, rest, total - amounts[last], a, v);
        assert amounts[a := v] - {last} == rest[a := v];
      }
    }
  }

  /** Crediting `v` to `a` keeps the ledger consistent, and the total grows by `v`. */
  lemma CreditKeepsConsistent(donors: seq<Address>, amounts: map<Address, nat>, total: nat, a: Address, v: nat)
    requires Consistent(donors, amounts, total)
    ensures Consistent(Enrol(donors, amounts, a), amounts[a := AmountOf(amounts, a) + v], total + v)
  {
    if a in amounts {
      RewriteKeepsConsistent(donors, amounts, total, a, amounts[a] + v);
    } else {
      var donors' := donors + [a];
      assert donors'[..|donors'| - 1] == donors;
      assert amounts[a := v] - {a} == amounts;
    }
  }
}
