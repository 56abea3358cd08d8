/**
 * The beneficiary records of a campaign, as values: the active (payable)
 * beneficiaries with their enumeration order, the pending (staged, not yet
 * payable) ones, and the effect of committing a change request on them.
 */
module Registry {
  import opened Common

  /** What is stored for a beneficiary; `amount` is what it may claim. */
  datatype Beneficiary = Beneficiary(name: string, reason: string, amount: nat)

  /** What a lookup of an address without a record yields: every field zero/empty. */
  const NoRecord: Beneficiary := Beneficiary("", "", 0)

  /** A record that passed field validation. */
  predicate WellFormed(b: Beneficiary)
  {
    |b.name| > 0 && |b.reason| > 0 && b.amount > 0
  }

  /**
   * Field validation shared by addBeneficiary and addPendingBeneficiary,
   * reporting the first failure in the order name, reason, amount, address (the
   * suite exercises each failure alone, so this order is assumed).
   */
  function FieldError(name: string, reason: string, amount: nat, addr: Address): (r: Option<Error>)
    ensures r == None <==> WellFormed(Beneficiary(name, reason, amount)) && addr != ZeroAddress
    ensures r == Some(NameRequired) <==> |name| == 0
    ensures r == Some(ReasonRequired) <==> |name| > 0 && |reason| == 0
    ensures r == Some(AmountMustBePositive) <==> |name| > 0 && |reason| > 0 && amount == 0
    ensures r == Some(AddressRequired) <==> WellFormed(Beneficiary(name, reason, amount)) && addr == ZeroAddress
  {
    if |name| == 0 then Some(NameRequired)
    else if |reason| == 0 then Some(ReasonRequired)
    else if amount == 0 then Some(AmountMustBePositive)
    else if addr == ZeroAddress then Some(AddressRequired)
    else None
  }

  /** Active records, their enumeration order, and staged records. */
  datatype Roster = Roster(
    active: map<Address, Beneficiary>,
    addresses: seq<Address>,
    pending: map<Address, Beneficiary>)

  const EmptyRoster: Roster := Roster(map[], [], map[])

  /**
   * The address list enumerates exactly the active records, once each; every
   * stored record is well formed and none is kept under the zero address.
   */
  predicate RosterValid(r: Roster)
  {
    && NoDuplicates(r.addresses)
    && (forall a :: a in r.active <==> a in r.addresses)
    && ZeroAddress !in r.active && ZeroAddress !in r.pending
    && (forall a :: a in r.active ==> WellFormed(r.active[a]))
    && (forall a :: a in r.pending ==> WellFormed(r.pending[a]))
  }

  /** `s` with every occurrence of `x` removed, the rest in its original order. */
  function Without(s: seq<Address>, x: Address): (t: seq<Address>)
    ensures forall y :: y in t <==> y in s && y != x
    ensures |t| <= |s|
  {
    if s == [] then []
    else if s[0] == x then Without(s[1..], x)
    else [s[0]] + Without(s[1..], x)
  }

  lemma {:induction false} WithoutNoDuplicates(s: seq<Address>, x: Address)
    requires NoDuplicates(s)
    ensures NoDuplicates(Without(s, x))
  {
    if s != [] {
      assert NoDuplicates(s[1..]);
      WithoutNoDuplicates(s[1..], x);
      assert s[0] !in s[1..];
    }
  }

  /** Make `a` an active beneficiary with record `b` (appended to the order if new). */
  function AddActive(r: Roster, a: Address, b: Beneficiary): Roster
  {
    r.(active := r.active[a := b],
       addresses := if a in r.active then r.addresses else r.addresses + [a])
  }

  /** Stage record `b` for `a` without making it payable. */
  function Stage(r: Roster, a: Address, b: Beneficiary): Roster
  {
    r.(pending := r.pending[a := b])
  }

  /** Drop `x` from the active records and from the enumeration order. */
  function RemoveActive(r: Roster, x: Address): Roster
  {
    r.(active := r.active - {x}, addresses := Without(r.addresses, x))
  }

  /** Move the staged record of `x`, if there is one, into the active records. */
  function Promote(r: Roster, x: Address): Roster
  {
    if x in r.pending then AddActive(r, x, r.pending[x]).(pending := r.pending - {x}) else r
  }

  /**
   * The effect of committing a change request: first remove `remove` (unless it
   * is the zero address), then promote the staged `add` (unless it is zero).
   */
  function ApplyChange(r: Roster, remove: Address, add: Address): Roster
  {
    var afterRemove := if remove != ZeroAddress then RemoveActive(r, remove) else r;
    if add != ZeroAddress then Promote(afterRemove, add) else afterRemove
  }

  /** A direct addition keeps the roster consistent and makes `a` enumerable with record `b`. */
  lemma AddActiveEffect(r: Roster, a: Address, b: Beneficiary)
    requires RosterValid(r) && WellFormed(b) && a != ZeroAddress
    ensures RosterValid(AddActive(r, a, b))
    ensures a in AddActive(r, a, b).addresses && AddActive(r, a, b).active[a] == b
    ensures forall x :: x in r.addresses ==> x in AddActive(r, a, b).addresses
  {
    if a !in r.active {
      NoDuplicatesAppend(r.addresses, a);
    }
  }

  /** Staging keeps the roster consistent and leaves the payable records alone. */
  lemma StageEffect(r: Roster, a: Address, b: Beneficiary)
    requires RosterValid(r) && WellFormed(b) && a != ZeroAddress
    ensures RosterValid(Stage(r, a, b))
    ensures Stage(r, a, b).active == r.active && Stage(r, a, b).addresses == r.addresses
    ensures Stage(r, a, b).pending[a] == b
  {
  }

  /** Committing a change request keeps the roster consistent. */
  lemma ApplyChangeValid(r: Roster, remove: Address, add: Address)
    requires RosterValid(r)
    ensures RosterValid(ApplyChange(r, remove, add))
  {
    var afterRemove := if remove != ZeroAddress then RemoveActive(r, remove) else r;
    if remove != ZeroAddress {
      WithoutNoDuplicates(r.addresses, remove);
    }
    assert RosterValid(afterRemove);
    if add != ZeroAddress && add in afterRemove.pending {
      AddActiveEffect(afterRemove, add, afterRemove.pending[add]);
    }
  }

  /**
   * What a commit does and nothing more: the staged `add` becomes active with
   * its staged record and leaves the staging area; `remove` (when it is not also
   * the added address) is no longer enumerated; every other address keeps its
   * active and staged records.
   */
  lemma ApplyChangeEffect(r: Roster, remove: Address, add: Address)
    requires RosterValid(r)
    ensures var r' := ApplyChange(r, remove, add);
      add != ZeroAddress && add in r.pending ==>
        add in r'.addresses && add in r'.active && r'.active[add] == r.pending[add] && add !in r'.pending
    ensures var r' := ApplyChange(r, remove, add);
      remove != ZeroAddress && remove != add ==> remove !in r'.addresses && remove !in r'.active
    ensures var r' := ApplyChange(r, remove, add);
      forall a :: a != remove && a != add ==>
        && (a in r'.addresses <==> a in r.addresses)
        && (a in r'.active <==> a in r.active)
        && (a in r.active ==> r'.active[a] == r.active[a])
        && (a in r'.pending <==> a in r.pending)
        && (a in r.pending ==> r'.pending[a] == r.pending[a])
  {
    ApplyChangeValid(r, remove, add);
  }
}
