/**
 * The allocation engine of the partnership tracker: total contributions,
 * ownership percentages and the per-partner split of a period's profit or
 * loss. Every amount is an exact `real`.
 */
module Allocation {

  /** A partner of the fund and the capital they have contributed. */
  datatype Partner = Partner(id: int, name: string, contribution: real)

  /** One partner's line in a recorded period (a snapshot, never mutated). */
  datatype PartnerAllocation = PartnerAllocation(
    name: string,
    contribution: real,
    ownership: real,
    allocation: real,
    balance: real)

  /** A recorded period: the reported account value and everything derived from it. */
  datatype Period = Period(
    id: int,
    date: string,
    totalValue: real,
    totalContributions: real,
    managementFee: real,
    netValue: real,
    profitLoss: real,
    notes: string,
    partners: seq<PartnerAllocation>)

  /** The annual management fee rate, 2%. */
  const ManagementFeeRate: real := 0.02

  /** Sum of the partners' contributions, folded left to right as `reduce` does. */
  function TotalContributions(ps: seq<Partner>): real
  {
    if ps == [] then 0.0
    else TotalContributions(ps[..|ps| - 1]) + ps[|ps| - 1].contribution
  }

  /**
   * A contribution as a percentage of the total; 0 when the total is 0
   * (the guard against dividing by zero).
   */
  function Ownership(contribution: real, total: real): (r: real)
    ensures total == 0.0 ==> r == 0.0
    ensures total != 0.0 ==> r * total == contribution * 100.0
  {
    if total == 0.0 then 0.0 else contribution / total * 100.0
  }

  /** The allocation record of one partner for a period whose profit or loss is `profitLoss`. */
  function AllocationFor(p: Partner, total: real, profitLoss: real): PartnerAllocation
  {
    var ownership := Ownership(p.contribution, total);
    var allocation := profitLoss * ownership / 100.0;
    PartnerAllocation(p.name, p.contribution, ownership, allocation, p.contribution + allocation)
  }

  /** One allocation record per partner, in the partners' order. */
  function Allocate(ps: seq<Partner>, total: real, profitLoss: real): (r: seq<PartnerAllocation>)
    ensures |r| == |ps|
  {
    seq(|ps|, i requires 0 <= i < |ps| => AllocationFor(ps[i], total, profitLoss))
  }

  /** Monthly management fee on a reported account value. */
  function ManagementFee(totalValue: real): real
  {
    totalValue * ManagementFeeRate / 12.0
  }

  /**
   * The period `addPeriod` records for the given form values and partner
   * list, once its validation has passed.
   */
  function NewPeriod(id: int, date: string, totalValue: real, notes: string, ps: seq<Partner>): Period
  {
    var total := TotalContributions(ps);
    var fee := ManagementFee(totalValue);
    var net := totalValue - fee;
    var profitLoss := net - total;
    Period(id, date, totalValue, total, fee, net, profitLoss, notes, Allocate(ps, total, profitLoss))
  }

  /** Sums over the allocation records of a period, folded left to right. */
  function OwnershipSum(rs: seq<PartnerAllocation>): real
  {
    if rs == [] then 0.0 else OwnershipSum(rs[..|rs| - 1]) + rs[|rs| - 1].ownership
  }

  function AllocationSum(rs: seq<PartnerAllocation>): real
  {
    if rs == [] then 0.0 else AllocationSum(rs[..|rs| - 1]) + rs[|rs| - 1].allocation
  }

  function BalanceSum(rs: seq<PartnerAllocation>): real
  {
    if rs == [] then 0.0 else BalanceSum(rs[..|rs| - 1]) + rs[|rs| - 1].balance
  }

  // ---------------------------------------------------------------------------
  // Total contributions
  // ---------------------------------------------------------------------------

  /** The total of a concatenation is the sum of the totals. */
  lemma {:induction false} TotalContributionsAppend(a: seq<Partner>, b: seq<Partner>)
    ensures TotalContributions(a + b) == TotalContributions(a) + TotalContributions(b)
    decreases |b|
  {
    if b == [] {
      assert a + b == a;
    } else {
      var b' := b[..|b| - 1];
      assert (a + b)[..|a + b| - 1] == a + b';
      TotalContributionsAppend(a, b');
    }
  }

  /**
   * Replacing one partner changes the total by exactly the difference of the
   * two contributions: every other partner still counts once.
   */
  lemma TotalContributionsUpdate(ps: seq<Partner>, k: nat, p: Partner)
    requires k < |ps|
    ensures TotalContributions(ps[k := p]) == TotalContributions(ps) - ps[k].contribution + p.contribution
  {
    var pre, post := ps[..k], ps[k + 1..];
    assert ps == pre + [ps[k]] + post;
    assert ps[k := p] == pre + [p] + post;
    TotalContributionsAppend(pre + [ps[k]], post);
    TotalContributionsAppend(pre + [p], post);
    TotalContributionsAppend(pre, [ps[k]]);
    TotalContributionsAppend(pre, [p]);
    assert [ps[k]][..0] == [] && [p][..0] == [];
  }

  /**
   * With no negative contribution, the total is 0 exactly when every partner's
   * contribution is 0: only then is a period refused for lack of capital.
   */
  lemma {:induction false} TotalContributionsZero(ps: seq<Partner>)
    requires forall i :: 0 <= i < |ps| ==> ps[i].contribution >= 0.0
    ensures TotalContributions(ps) >= 0.0
    ensures TotalContributions(ps) == 0.0 <==> forall i :: 0 <= i < |ps| ==> ps[i].contribution == 0.0
  {
    if ps != [] {
      var ps' := ps[..|ps| - 1];
      TotalContributionsZero(ps');
      assert forall i :: 0 <= i < |ps'| ==> ps'[i] == ps[i];
    }
  }

  // ---------------------------------------------------------------------------
  // Ownership and allocation
  // ---------------------------------------------------------------------------

  lemma AllocateSnoc(ps: seq<Partner>, total: real, profitLoss: real)
    requires ps != []
    ensures Allocate(ps, total, profitLoss)
         == Allocate(ps[..|ps| - 1], total, profitLoss) + [AllocationFor(ps[|ps| - 1], total, profitLoss)]
  {
  }

  /** One step of a scaled running sum: adding a scaled term to both sides keeps them equal. */
  lemma ScaleStep(s: real, s': real, x: real, t: real, u: real, u': real, c: real, m: real)
    requires s == s' + x && u == u' + c
    requires s' * t == u' * m && x * t == c * m
    ensures s * t == u * m
  {
    calc {
      s * t;
      (s' + x) * t;
      s' * t + x * t;
      u' * m + c * m;
      (u' + c) * m;
    }
  }

  /** A nonzero factor cancels. */
  lemma Cancel(s: real, k: real, t: real, u: real)
    requires t != 0.0 && u == t && s * t == k * u
    ensures s == k
  {
    assert s == s * t / t;
  }

  /** A percentage of a profit, scaled back by the divisor it was taken over. */
  lemma PercentScaled(ownership: real, t: real, c: real, profitLoss: real)
    requires ownership * t == c * 100.0
    ensures profitLoss * ownership / 100.0 * t == c * profitLoss
  {
    calc {
      profitLoss * ownership / 100.0 * t;
      profitLoss * (ownership * t) / 100.0;
      profitLoss * (c * 100.0) / 100.0;
    }
  }

  /**
   * Scaled by a nonzero `total`, one record's ownership is its contribution
   * times 100 and its allocation is its contribution times the profit or loss.
   */
  lemma AllocationForScaled(p: Partner, total: real, profitLoss: real)
    requires total != 0.0
    ensures AllocationFor(p, total, profitLoss).ownership * total == p.contribution * 100.0
    ensures AllocationFor(p, total, profitLoss).allocation * total == p.contribution * profitLoss
  {
    var own := Ownership(p.contribution, total);
    PercentScaled(own, total, p.contribution, profitLoss);
  }

  /** Splitting off the last partner's record. */
  lemma AllocateLast(ps: seq<Partner>, total: real, profitLoss: real)
    requires ps != []
    ensures var rs := Allocate(ps, total, profitLoss);
            var rs' := Allocate(ps[..|ps| - 1], total, profitLoss);
            var r := AllocationFor(ps[|ps| - 1], total, profitLoss);
            && OwnershipSum(rs) == OwnershipSum(rs') + r.ownership
            && AllocationSum(rs) == AllocationSum(rs') + r.allocation
            && BalanceSum(rs) == BalanceSum(rs') + r.balance
            && TotalContributions(ps) == TotalContributions(ps[..|ps| - 1]) + ps[|ps| - 1].contribution
  {
    var rs := Allocate(ps, total, profitLoss);
    AllocateSnoc(ps, total, profitLoss);
    assert rs[..|rs| - 1] == Allocate(ps[..|ps| - 1], total, profitLoss);
  }

  /**
   * Scaled by a nonzero `total`, the ownerships of the records add up to the
   * contributions' total times 100.
   */
  lemma {:induction false} OwnershipSumScaled(ps: seq<Partner>, total: real, profitLoss: real)
    requires total != 0.0
    ensures OwnershipSum(Allocate(ps, total, profitLoss)) * total == 100.0 * TotalContributions(ps)
  {
    if ps == [] {
      assert Allocate(ps, total, profitLoss) == [];
    } else {
      var n := |ps| - 1;
      var ps' := ps[..n];
      var r := AllocationFor(ps[n], total, profitLoss);
      OwnershipSumScaled(ps', total, profitLoss);
      AllocateLast(ps, total, profitLoss);
      AllocationForScaled(ps[n], total, profitLoss);
      ScaleStep(OwnershipSum(Allocate(ps, total, profitLoss)), OwnershipSum(Allocate(ps', total, profitLoss)),
                r.ownership, total, TotalContributions(ps), TotalContributions(ps'), ps[n].contribution, 100.0);
    }
  }

  /**
   * Scaled by a nonzero `total`, the allocations of the records add up to the
   * contributions' total times the profit or loss.
   */
  lemma {:induction false} AllocationSumScaled(ps: seq<Partner>, total: real, profitLoss: real)
    requires total != 0.0
    ensures AllocationSum(Allocate(ps, total, profitLoss)) * total == profitLoss * TotalContributions(ps)
  {
    if ps == [] {
      assert Allocate(ps, total, profitLoss) == [];
    } else {
      var n := |ps| - 1;
      var ps' := ps[..n];
      var r := AllocationFor(ps[n], total, profitLoss);
      AllocationSumScaled(ps', total, profitLoss);
      AllocateLast(ps, total, profitLoss);
      AllocationForScaled(ps[n], total, profitLoss);
      ScaleStep(AllocationSum(Allocate(ps, total, profitLoss)), AllocationSum(Allocate(ps', total, profitLoss)),
                r.allocation, total, TotalContributions(ps), TotalContributions(ps'), ps[n].contribution, profitLoss);
    }
  }

  /** Each balance is contribution plus allocation, so the balances add up to the two totals. */
  lemma {:induction false} BalanceSumSplit(ps: seq<Partner>, total: real, profitLoss: real)
    ensures BalanceSum(Allocate(ps, total, profitLoss))
         == TotalContributions(ps) + AllocationSum(Allocate(ps, total, profitLoss))
  {
    if ps == [] {
      assert Allocate(ps, total, profitLoss) == [];
    } else {
      AllocateLast(ps, total, profitLoss);
      BalanceSumSplit(ps[..|ps| - 1], total, profitLoss);
    }
  }

  /** When the contributions' total is not 0, the partners' ownerships add up to exactly 100. */
  lemma OwnershipsSumTo100(ps: seq<Partner>, profitLoss: real)
    requires TotalContributions(ps) != 0.0
    ensures OwnershipSum(Allocate(ps, TotalContributions(ps), profitLoss)) == 100.0
  {
    var total := TotalContributions(ps);
    OwnershipSumScaled(ps, total, profitLoss);
    Cancel(OwnershipSum(Allocate(ps, total, profitLoss)), 100.0, total, TotalContributions(ps));
  }

  /**
   * When the contributions' total is 0, every ownership is 0, and so is every
   * allocation: each balance is the bare contribution.
   */
  lemma NoCapitalNoOwnership(ps: seq<Partner>, profitLoss: real)
    requires TotalContributions(ps) == 0.0
    ensures forall i :: 0 <= i < |ps| ==>
              var r := Allocate(ps, 0.0, profitLoss)[i];
              r.ownership == 0.0 && r.allocation == 0.0 && r.balance == ps[i].contribution
  {
  }

  /**
   * When the contributions' total is not 0, the allocations add up to exactly
   * the profit or loss, and the balances to the total plus that profit or loss.
   */
  lemma AllocationsSumToProfitLoss(ps: seq<Partner>, profitLoss: real)
    requires TotalContributions(ps) != 0.0
    ensures var total := TotalContributions(ps);
            var rs := Allocate(ps, total, profitLoss);
            && AllocationSum(rs) == profitLoss
            && BalanceSum(rs) == total + profitLoss
  {
    var total := TotalContributions(ps);
    AllocationSumScaled(ps, total, profitLoss);
    Cancel(AllocationSum(Allocate(ps, total, profitLoss)), profitLoss, total, TotalContributions(ps));
    BalanceSumSplit(ps, total, profitLoss);
  }

  /**
   * Each allocation record carries its partner's name and contribution, its
   * allocation is in proportion to the contribution, and its balance is the
   * contribution plus the allocation.
   */
  lemma AllocationProportional(ps: seq<Partner>, total: real, profitLoss: real, i: nat)
    requires i < |ps|
    ensures var r := Allocate(ps, total, profitLoss)[i];
            && r.name == ps[i].name
            && r.contribution == ps[i].contribution
            && r.balance == r.contribution + r.allocation
            && (total != 0.0 ==> r.allocation * total == ps[i].contribution * profitLoss)
            && (total == 0.0 ==> r.allocation == 0.0 && r.balance == r.contribution)
  {
    if total != 0.0 {
      AllocationForScaled(ps[i], total, profitLoss);
    }
  }

  // ---------------------------------------------------------------------------
  // A recorded period
  // ---------------------------------------------------------------------------

  /**
   * The figures of a recorded period: a monthly fee of 2%/12 = 1/600 of the
   * account value, the net value is what remains after the fee, and the profit
   * or loss is the net value minus the contributions' snapshot.
   */
  lemma NewPeriodFigures(id: int, date: string, totalValue: real, notes: string, ps: seq<Partner>)
    ensures var p := NewPeriod(id, date, totalValue, notes, ps);
            && p.id == id && p.date == date && p.notes == notes && p.totalValue == totalValue
            && p.totalContributions == TotalContributions(ps)
            && p.managementFee * 600.0 == totalValue
            && p.netValue + p.managementFee == totalValue
            && p.profitLoss == totalValue - totalValue / 600.0 - TotalContributions(ps)
  {
  }

  /**
   * The partner list of a recorded period matches the partner list it was
   * taken from, record for record, and its ownerships, allocations and
   * balances add up to 100, the profit or loss and the net value.
   */
  lemma NewPeriodAllocations(id: int, date: string, totalValue: real, notes: string, ps: seq<Partner>)
    requires TotalContributions(ps) != 0.0
    ensures var p := NewPeriod(id, date, totalValue, notes, ps);
            && |p.partners| == |ps|
            && (forall i :: 0 <= i < |ps| ==>
                  && p.partners[i].name == ps[i].name
                  && p.partners[i].contribution == ps[i].contribution
                  && p.partners[i].balance == p.partners[i].contribution + p.partners[i].allocation)
            && OwnershipSum(p.partners) == 100.0
            && AllocationSum(p.partners) == p.profitLoss
            && BalanceSum(p.partners) == p.netValue
  {
    var p := NewPeriod(id, date, totalValue, notes, ps);
    var total, profitLoss := TotalContributions(ps), p.profitLoss;
    var rs := Allocate(ps, total, profitLoss);
    assert p.partners == rs && p.totalContributions == total;
    OwnershipsSumTo100(ps, profitLoss);
    AllocationsSumToProfitLoss(ps, profitLoss);
    assert BalanceSum(rs) == p.netValue;
    forall i | 0 <= i < |ps|
      ensures rs[i].name == ps[i].name && rs[i].contribution == ps[i].contribution
      ensures rs[i].balance == rs[i].contribution + rs[i].allocation
    {
      AllocationProportional(ps, total, profitLoss, i);
    }
  }

  /**
   * The worked example: contributions 1000, 2000 and 2000 with an account
   * value of 5500 give a fee of 55/6 (about 9.17), a profit of 2945/6 (about
   * 490.83), ownerships of 20, 40 and 40 and allocations of 589/6, 1178/6 and
   * 1178/6.
   */
  lemma WorkedExample()
    ensures var ps := [Partner(1, "A", 1000.0), Partner(2, "B", 2000.0), Partner(3, "C", 2000.0)];
            var p := NewPeriod(0, "", 5500.0, "", ps);
            && p.managementFee == 55.0 / 6.0
            && p.profitLoss == 2945.0 / 6.0
            && p.partners[0].ownership == 20.0 && p.partners[1].ownership == 40.0 && p.partners[2].ownership == 40.0
            && p.partners[0].allocation == 589.0 / 6.0 && p.partners[1].allocation == 1178.0 / 6.0
            && p.partners[2].balance == 2000.0 + 1178.0 / 6.0
  {
    var ps := [Partner(1, "A", 1000.0), Partner(2, "B", 2000.0), Partner(3, "C", 2000.0)];
    assert ps[..2] == [Partner(1, "A", 1000.0), Partner(2, "B", 2000.0)];
    assert ps[..2][..1] == [Partner(1, "A", 1000.0)];
    assert [Partner(1, "A", 1000.0)][..0] == [];
    assert TotalContributions(ps[..2][..1]) == 1000.0;
    assert TotalContributions(ps[..2]) == 3000.0;
    assert TotalContributions(ps) == 5000.0;
  }
}
