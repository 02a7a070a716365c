/** Splitting accumulated fees by percentages (rs/common/token-module). */
module FeeSharing {
  import opened Collections

  const PERCENTAGE_TOTAL: nat := 10000

  datatype Share = Share(address: nat, percentage: nat)

  function PercentSum(shares: seq<Share>): nat {
    if shares == [] then 0 else PercentSum(shares[..|shares| - 1]) + shares[|shares| - 1].percentage
  }

  /** The part of `fees` one percentage earns, rounded down. */
  function Cut(fees: nat, percentage: nat): nat {
    fees * percentage / PERCENTAGE_TOTAL
  }

  function CutSum(fees: nat, shares: seq<Share>): nat {
    if shares == [] then 0
    else CutSum(fees, shares[..|shares| - 1]) + Cut(fees, shares[|shares| - 1].percentage)
  }

  /** Each cut loses less than one unit to rounding. */
  lemma {:induction false} CutSumBounds(fees: nat, shares: seq<Share>)
    ensures CutSum(fees, shares) * PERCENTAGE_TOTAL <= fees * PercentSum(shares)
    ensures fees * PercentSum(shares) <= CutSum(fees, shares) * PERCENTAGE_TOTAL + |shares| * (PERCENTAGE_TOTAL - 1)
  {
    if shares != [] {
      var n := |shares| - 1;
      CutSumBounds(fees, shares[..n]);
      var p, before := shares[n].percentage, PercentSum(shares[..n]);
      assert fees * (before + p) == fees * before + fees * p;
      assert fees * p == Cut(fees, p) * PERCENTAGE_TOTAL + fees * p % PERCENTAGE_TOTAL;
    }
  }

  /** Shares of 100% never overdraw, for any number of recipients, and leave less dust than recipients. */
  lemma {:induction false} DustIsSmall(fees: nat, shares: seq<Share>)
    requires PercentSum(shares) == PERCENTAGE_TOTAL
    ensures CutSum(fees, shares) <= fees < CutSum(fees, shares) + |shares|
  {
    CutSumBounds(fees, shares);
  }

  /** A prefix of the recipients never gets more than all of them. */
  lemma {:induction false} CutSumMonotone(fees: nat, shares: seq<Share>, k: nat)
    requires k <= |shares|
    ensures CutSum(fees, shares[..k]) <= CutSum(fees, shares)
  {
    if k < |shares| {
      var n := |shares| - 1;
      CutSumMonotone(fees, shares[..n], k);
      assert shares[..n][..k] == shares[..k];
    } else {
      assert shares[..k] == shares;
    }
  }

  /** What one address receives in total; it may be listed several times. */
  function CutFor(fees: nat, shares: seq<Share>, address: nat): nat {
    if shares == [] then 0
    else
      var share := shares[|shares| - 1];
      CutFor(fees, shares[..|shares| - 1], address) +
      (if share.address == address then Cut(fees, share.percentage) else 0)
  }

  /** An address that is not listed gets nothing; one that is listed once gets its percentage, rounded down. */
  lemma {:induction false} CutForListed(fees: nat, shares: seq<Share>, address: nat)
    ensures (forall i :: 0 <= i < |shares| ==> shares[i].address != address) ==> CutFor(fees, shares, address) == 0
  {
    if shares != [] {
      CutForListed(fees, shares[..|shares| - 1], address);
    }
  }

  lemma {:induction false} CutForOnce(fees: nat, shares: seq<Share>, i: nat)
    requires i < |shares| && forall j :: 0 <= j < |shares| && j != i ==> shares[j].address != shares[i].address
    ensures var cut := CutFor(fees, shares, shares[i].address);
            cut * 10000 <= fees * shares[i].percentage < (cut + 1) * 10000
  {
    var n := |shares| - 1;
    if i == n {
      CutForListed(fees, shares[..n], shares[n].address);
    } else {
      CutForOnce(fees, shares[..n], i);
    }
  }

  ghost function Cuts(fees: nat, shares: seq<Share>, addresses: set<nat>): map<nat, nat> {
    map a | a in addresses :: CutFor(fees, shares, a)
  }

  /** What all addresses get together is what is paid out. */
  lemma {:induction false} CutsAddUp(fees: nat, shares: seq<Share>, addresses: set<nat>)
    requires forall i :: 0 <= i < |shares| ==> shares[i].address in addresses
    ensures Total(Cuts(fees, shares, addresses)) == CutSum(fees, shares)
  {
    if shares == [] {
      NothingCut(fees, addresses);
    } else {
      var n := |shares| - 1;
      CutsAddUp(fees, shares[..n], addresses);
      var before, a := Cuts(fees, shares[..n], addresses), shares[n].address;
      var more := Get(before, a) + Cut(fees, shares[n].percentage);
      assert Cuts(fees, shares, addresses) == before[a := more];
      TotalUpdate(before, a, more);
    }
  }

  lemma {:induction false} NothingCut(fees: nat, addresses: set<nat>)
    ensures Total(Cuts(fees, [], addresses)) == 0
    decreases |addresses|
  {
    if addresses == {} {
      assert Cuts(fees, [], addresses) == map[];
    } else {
      var a :| a in addresses;
      NothingCut(fees, addresses - {a});
      assert Cuts(fees, [], addresses) - {a} == Cuts(fees, [], addresses - {a});
      TotalRemove(Cuts(fees, [], addresses), a);
    }
  }
}
