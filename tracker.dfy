/**
 * The partnership tracker's state and the operations that replace it:
 * editing a partner, recording a period, deleting periods and exporting the
 * recorded periods as CSV text.
 */
module PartnershipTracker {
  import opened Allocation
  import opened CsvExport

  /**
   * The value of a number input field: blank, or a number. (A number input
   * reports an empty value for anything that is not a number.)
   */
  datatype NumberInput = Blank | Entered(value: real)

  /** `Number(...)` of a field's value: a blank field reads as 0. */
  function ToNumber(x: NumberInput): real
  {
    match x
    case Blank => 0.0
    case Entered(v) => v
  }

  /** The "Record New Period" form. */
  datatype PeriodForm = PeriodForm(date: string, totalValue: NumberInput, notes: string)

  /** One field of a partner and the value written into it. */
  datatype PartnerEdit =
    | SetId(newId: int)
    | SetName(newName: string)
    | SetContribution(input: NumberInput)

  /** Writes one field; a contribution is coerced to a number. */
  function ApplyEdit(p: Partner, e: PartnerEdit): Partner
  {
    match e
    case SetId(i) => p.(id := i)
    case SetName(s) => p.(name := s)
    case SetContribution(x) => p.(contribution := ToNumber(x))
  }

  /** The partner list with the edit applied to every partner carrying `id`. */
  function UpdateById(ps: seq<Partner>, id: int, e: PartnerEdit): (r: seq<Partner>)
    ensures |r| == |ps|
    ensures forall i :: 0 <= i < |ps| && ps[i].id != id ==> r[i] == ps[i]
    ensures forall i :: 0 <= i < |ps| && ps[i].id == id ==> r[i] == ApplyEdit(ps[i], e)
  {
    if ps == [] then []
    else
      var p := ps[|ps| - 1];
      UpdateById(ps[..|ps| - 1], id, e) + [if p.id == id then ApplyEdit(p, e) else p]
  }

  /** The periods whose id is not `id`, in their original order. */
  function WithoutId(ps: seq<Period>, id: int): (r: seq<Period>)
    ensures |r| <= |ps|
    ensures forall q :: q in r <==> q in ps && q.id != id
  {
    if ps == [] then []
    else
      var p := ps[|ps| - 1];
      WithoutId(ps[..|ps| - 1], id) + (if p.id != id then [p] else [])
  }

  const RejectionMessage: string := "Please enter partner contributions and total account value"

  /** What recording a period did: it recorded one, or showed the rejection message. */
  datatype AddOutcome = Recorded | Rejected(message: string)

  /** The roster the tracker starts with: five partners, ids 1 to 5, nothing contributed. */
  const DefaultPartners: seq<Partner> := [
    Partner(1, "George Bierwirth", 0.0),
    Partner(2, "Desmond Leahy", 0.0),
    Partner(3, "Byron Smith", 0.0),
    Partner(4, "Richard Starick", 0.0),
    Partner(5, "James Warner", 0.0)
  ]

  class Tracker {
    var partners: seq<Partner>
    var periods: seq<Period>
    var currentPeriod: PeriodForm

    /** A fresh tracker: the default roster, no periods, an empty form dated `today`. */
    constructor (today: string)
      ensures partners == DefaultPartners && periods == []
      ensures currentPeriod == PeriodForm(today, Blank, "")
    {
      partners := DefaultPartners;
      periods := [];
      currentPeriod := PeriodForm(today, Blank, "");
    }

    /** Rewrites one field of the partners carrying `id`; nothing else changes. */
    method UpdatePartner(id: int, e: PartnerEdit)
      modifies this
      ensures partners == UpdateById(old(partners), id, e)
      ensures periods == old(periods) && currentPeriod == old(currentPeriod)
    {
      partners := UpdateById(partners, id, e);
    }

    /**
     * Records a period from the form and the current partners. It is refused,
     * leaving everything as it was, when the entered account value or the
     * total contribution is 0; otherwise exactly one period is appended and the
     * form is reset to `today` with blank value and notes. `id` stands for the
     * clock reading that names the period.
     */
    method AddPeriod(id: int, today: string) returns (outcome: AddOutcome)
      modifies this
      ensures var value := ToNumber(old(currentPeriod.totalValue));
              outcome.Rejected? <==> value == 0.0 || TotalContributions(old(partners)) == 0.0
      ensures outcome.Rejected? ==>
                && outcome.message == RejectionMessage
                && partners == old(partners) && periods == old(periods)
                && currentPeriod == old(currentPeriod)
      ensures outcome.Recorded? ==>
                && partners == old(partners)
                && periods == old(periods) + [NewPeriod(id, old(currentPeriod.date),
                     ToNumber(old(currentPeriod.totalValue)), old(currentPeriod.notes), old(partners))]
                && currentPeriod == PeriodForm(today, Blank, "")
    {
      var totalValue := ToNumber(currentPeriod.totalValue);
      if totalValue == 0.0 || TotalContributions(partners) == 0.0 {
        return Rejected(RejectionMessage);
      }
      var period := NewPeriod(id, currentPeriod.date, totalValue, currentPeriod.notes, partners);
      periods := periods + [period];
      currentPeriod := PeriodForm(today, Blank, "");
      outcome := Recorded;
    }

    /** Removes every period carrying `id`; the partners and the form are untouched. */
    method DeletePeriod(id: int)
      modifies this
      ensures periods == WithoutId(old(periods), id)
      ensures partners == old(partners) && currentPeriod == old(currentPeriod)
    {
      periods := WithoutId(periods, id);
    }

    /**
     * The CSV export of the recorded periods: the summary table, then the
     * partner-by-period table, built by appending one row at a time.
     */
    method GenerateCsvText(fmt: real -> string) returns (csv: string)
      ensures csv == CsvText(periods, fmt)
    {
      var ps := periods;
      csv := SummaryHeader;
      assert [SummaryHeader][..0] == [] && ps[..0] == [];
      var i := 0;
      while i < |ps|
        invariant 0 <= i <= |ps|
        invariant csv == Concat([SummaryHeader] + SummaryRows(ps[..i], fmt))
      {
        SummaryStep(ps, i, fmt);
        csv := csv + SummaryRow(i + 1, ps[i], fmt);
        i := i + 1;
      }
      assert ps[..i] == ps;
      HeadSplit(ps, fmt);
      csv := csv + AllocationsTitle;
      csv := csv + DetailHeader;

      ghost var head := [SummaryHeader] + SummaryRows(ps, fmt) + [AllocationsTitle, DetailHeader];
      ghost var pre := csv;
      assert Concat(DetailRows(ps[..0], fmt)) == "";
      i := 0;
      while i < |ps|
        invariant 0 <= i <= |ps|
        invariant csv == pre + Concat(DetailRows(ps[..i], fmt))
      {
        var period := ps[i];
        assert Concat(AllocationRows(i + 1, period.date, period.partners[..0], fmt)) == "";
        var j := 0;
        while j < |period.partners|
          invariant 0 <= j <= |period.partners|
          invariant csv == pre + Concat(DetailRows(ps[..i], fmt))
                           + Concat(AllocationRows(i + 1, period.date, period.partners[..j], fmt))
        {
          ghost var done := pre + Concat(DetailRows(ps[..i], fmt));
          ghost var rows := Concat(AllocationRows(i + 1, period.date, period.partners[..j], fmt));
          var row := DetailRow(i + 1, period.date, period.partners[j], fmt);
          AllocationStep(i + 1, period.date, period.partners, j, fmt);
          AppendAssoc(done, rows, row);
          csv := csv + row;
          j := j + 1;
        }
        assert period.partners[..j] == period.partners;
        DetailStep(ps, i, fmt);
        AppendAssoc(pre, Concat(DetailRows(ps[..i], fmt)),
                    Concat(AllocationRows(i + 1, period.date, period.partners, fmt)));
        i := i + 1;
      }
      assert ps[..i] == ps;
      ConcatAppend(head, DetailRows(ps, fmt));
    }
  }

  // ---------------------------------------------------------------------------
  // Steps of the CSV loops
  // ---------------------------------------------------------------------------

  lemma AppendAssoc(a: string, b: string, c: string)
    ensures (a + b) + c == a + (b + c)
  {
  }

  lemma SummaryStep(ps: seq<Period>, i: nat, fmt: real -> string)
    requires i < |ps|
    ensures Concat([SummaryHeader] + SummaryRows(ps[..i + 1], fmt))
         == Concat([SummaryHeader] + SummaryRows(ps[..i], fmt)) + SummaryRow(i + 1, ps[i], fmt)
  {
    var done := [SummaryHeader] + SummaryRows(ps[..i], fmt);
    var row := SummaryRow(i + 1, ps[i], fmt);
    assert ps[..i + 1][..i] == ps[..i];
    assert [SummaryHeader] + SummaryRows(ps[..i + 1], fmt) == done + [row];
    ConcatAppend(done, [row]);
    assert [row][..0] == [];
  }

  lemma HeadSplit(ps: seq<Period>, fmt: real -> string)
    ensures Concat([SummaryHeader] + SummaryRows(ps, fmt) + [AllocationsTitle, DetailHeader])
         == Concat([SummaryHeader] + SummaryRows(ps, fmt)) + AllocationsTitle + DetailHeader
  {
    ConcatAppend([SummaryHeader] + SummaryRows(ps, fmt), [AllocationsTitle, DetailHeader]);
    assert [AllocationsTitle, DetailHeader][..1] == [AllocationsTitle];
    assert [AllocationsTitle][..0] == [];
    assert Concat([AllocationsTitle]) == AllocationsTitle;
    assert Concat([AllocationsTitle, DetailHeader]) == AllocationsTitle + DetailHeader;
  }

  lemma AllocationStep(n: nat, date: string, rs: seq<PartnerAllocation>, j: nat, fmt: real -> string)
    requires j < |rs|
    ensures Concat(AllocationRows(n, date, rs[..j + 1], fmt))
         == Concat(AllocationRows(n, date, rs[..j], fmt)) + DetailRow(n, date, rs[j], fmt)
  {
    var rows := AllocationRows(n, date, rs[..j], fmt);
    var row := DetailRow(n, date, rs[j], fmt);
    assert rs[..j + 1][..j] == rs[..j];
    assert AllocationRows(n, date, rs[..j + 1], fmt) == rows + [row];
    ConcatAppend(rows, [row]);
    assert [row][..0] == [];
  }

  lemma DetailStep(ps: seq<Period>, i: nat, fmt: real -> string)
    requires i < |ps|
    ensures Concat(DetailRows(ps[..i + 1], fmt))
         == Concat(DetailRows(ps[..i], fmt)) + Concat(AllocationRows(i + 1, ps[i].date, ps[i].partners, fmt))
  {
    assert ps[..i + 1][..i] == ps[..i];
    ConcatAppend(DetailRows(ps[..i], fmt), AllocationRows(i + 1, ps[i].date, ps[i].partners, fmt));
  }

  // ---------------------------------------------------------------------------
  // Properties of the state operations
  // ---------------------------------------------------------------------------

  /**
   * Setting the contribution of the one partner carrying `id` changes the
   * total contribution by the difference between the new and the old amount.
   */
  lemma UpdateContributionTotal(ps: seq<Partner>, id: int, x: NumberInput, k: nat)
    requires k < |ps| && ps[k].id == id
    requires forall i :: 0 <= i < |ps| && i != k ==> ps[i].id != id
    ensures TotalContributions(UpdateById(ps, id, SetContribution(x)))
         == TotalContributions(ps) - ps[k].contribution + ToNumber(x)
  {
    var r := UpdateById(ps, id, SetContribution(x));
    assert r == ps[k := ApplyEdit(ps[k], SetContribution(x))];
    TotalContributionsUpdate(ps, k, ApplyEdit(ps[k], SetContribution(x)));
  }

  /** An edit aimed at an id no partner carries leaves the list as it is. */
  lemma UpdateMissingId(ps: seq<Partner>, id: int, e: PartnerEdit)
    requires forall i :: 0 <= i < |ps| ==> ps[i].id != id
    ensures UpdateById(ps, id, e) == ps
  {
  }

  /** Filtering out an id keeps the relative order: it works piecewise on a concatenation. */
  lemma {:induction false} WithoutIdAppend(a: seq<Period>, b: seq<Period>, id: int)
    ensures WithoutId(a + b, id) == WithoutId(a, id) + WithoutId(b, id)
    decreases |b|
  {
    if b == [] {
      assert a + b == a;
    } else {
      var b' := b[..|b| - 1];
      assert (a + b)[..|a + b| - 1] == a + b';
      WithoutIdAppend(a, b', id);
    }
  }

  /**
   * Deleting an id no period carries changes nothing, and deleting the same id
   * twice is the same as deleting it once.
   */
  lemma {:induction false} WithoutIdIdempotent(ps: seq<Period>, id: int)
    ensures (forall q :: q in ps ==> q.id != id) ==> WithoutId(ps, id) == ps
    ensures WithoutId(WithoutId(ps, id), id) == WithoutId(ps, id)
  {
    if ps != [] {
      var init, p := ps[..|ps| - 1], ps[|ps| - 1];
      assert ps == init + [p];
      WithoutIdIdempotent(init, id);
      var rest := if p.id != id then [p] else [];
      WithoutIdAppend(WithoutId(init, id), rest, id);
      assert [p][..0] == [];
    }
  }

  /** A tracker in its initial state refuses to record a period: nothing has been contributed. */
  lemma DefaultPartnersRefuse()
    ensures TotalContributions(DefaultPartners) == 0.0
  {
    TotalContributionsZero(DefaultPartners);
  }
}
