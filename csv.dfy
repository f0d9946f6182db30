/**
 * The CSV text the tracker exports: a period-summary table followed by a
 * partner-by-period detail table. The text is specified here as a list of
 * rows; the tracker's GenerateCsvText builds it by appending row after row.
 *
 * Amounts are rendered by a caller-supplied `fmt` (two decimals in the
 * application); row numbers are rendered in decimal by NatToString.
 */
module CsvExport {
  import opened Allocation

  const SummaryHeader: string :=
    "Period,Date,Total Account Value,Total Contributions,Management Fee,Net Value,Profit/Loss,Notes\n"
  const AllocationsTitle: string := "\n\nPartner Allocations by Period\n"
  const DetailHeader: string :=
    "Period,Date,Partner,Contribution,Ownership %,P&L Allocation,Account Balance\n"

  // ---------------------------------------------------------------------------
  // Decimal row numbers
  // ---------------------------------------------------------------------------

  function Digit(d: nat): char
    requires d < 10
  {
    "0123456789"[d]
  }

  function DigitValue(c: char): nat
  {
    if '0' <= c <= '9' then (c - '0') as nat else 0
  }

  predicate IsDigits(s: string)
  {
    forall i :: 0 <= i < |s| ==> '0' <= s[i] <= '9'
  }

  /** The decimal numeral of `n`, as JavaScript writes a non-negative integer. */
  function NatToString(n: nat): (s: string)
    ensures |s| >= 1 && IsDigits(s)
    ensures n >= 10 ==> s[0] != '0'
    decreases n
  {
    if n < 10 then [Digit(n)] else NatToString(n / 10) + [Digit(n % 10)]
  }

  /** Reads a string of decimal digits back as a number. */
  function ParseNat(s: string): nat
  {
    if s == [] then 0 else ParseNat(s[..|s| - 1]) * 10 + DigitValue(s[|s| - 1])
  }

  /** Row numbers read back as the numbers they were written from. */
  lemma {:induction false} NatToStringRoundTrip(n: nat)
    ensures ParseNat(NatToString(n)) == n
    decreases n
  {
    var s := NatToString(n);
    if n < 10 {
      assert s[..0] == [];
    } else {
      NatToStringRoundTrip(n / 10);
      assert s[..|s| - 1] == NatToString(n / 10);
    }
  }

  /** Distinct row numbers are written differently. */
  lemma NatToStringInjective(m: nat, n: nat)
    requires NatToString(m) == NatToString(n)
    ensures m == n
  {
    NatToStringRoundTrip(m);
    NatToStringRoundTrip(n);
  }

  // ---------------------------------------------------------------------------
  // Rows
  // ---------------------------------------------------------------------------

  /** The summary row of the `n`-th period. */
  function SummaryRow(n: nat, p: Period, fmt: real -> string): string
  {
    NatToString(n) + "," + p.date + ","
      + fmt(p.totalValue) + "," + fmt(p.totalContributions) + ","
      + fmt(p.managementFee) + "," + fmt(p.netValue) + "," + fmt(p.profitLoss) + ","
      + "\"" + p.notes + "\"\n"
  }

  /** The detail row of one partner in the `n`-th period. */
  function DetailRow(n: nat, date: string, a: PartnerAllocation, fmt: real -> string): string
  {
    NatToString(n) + "," + date + "," + a.name + ","
      + fmt(a.contribution) + "," + fmt(a.ownership) + "%,"
      + fmt(a.allocation) + "," + fmt(a.balance) + "\n"
  }

  /** One summary row per period, numbered from 1 in list order. */
  function SummaryRows(ps: seq<Period>, fmt: real -> string): seq<string>
  {
    if ps == [] then [] else SummaryRows(ps[..|ps| - 1], fmt) + [SummaryRow(|ps|, ps[|ps| - 1], fmt)]
  }

  /** The detail rows of the `n`-th period, one per allocation record in order. */
  function AllocationRows(n: nat, date: string, rs: seq<PartnerAllocation>, fmt: real -> string): seq<string>
  {
    if rs == [] then [] else AllocationRows(n, date, rs[..|rs| - 1], fmt) + [DetailRow(n, date, rs[|rs| - 1], fmt)]
  }

  /** The detail rows of all periods: period by period, partner by partner. */
  function DetailRows(ps: seq<Period>, fmt: real -> string): seq<string>
  {
    if ps == [] then []
    else DetailRows(ps[..|ps| - 1], fmt) + AllocationRows(|ps|, ps[|ps| - 1].date, ps[|ps| - 1].partners, fmt)
  }

  /** The number of allocation records over all periods. */
  function AllocationCount(ps: seq<Period>): nat
  {
    if ps == [] then 0 else AllocationCount(ps[..|ps| - 1]) + |ps[|ps| - 1].partners|
  }

  /** The whole export, row by row. */
  function CsvRows(ps: seq<Period>, fmt: real -> string): seq<string>
  {
    [SummaryHeader] + SummaryRows(ps, fmt) + [AllocationsTitle, DetailHeader] + DetailRows(ps, fmt)
  }

  /** Rows joined into one text. */
  function Concat(rows: seq<string>): string
  {
    if rows == [] then "" else Concat(rows[..|rows| - 1]) + rows[|rows| - 1]
  }

  /** The exported text. */
  function CsvText(ps: seq<Period>, fmt: real -> string): string
  {
    Concat(CsvRows(ps, fmt))
  }

  // ---------------------------------------------------------------------------
  // Structure of the export
  // ---------------------------------------------------------------------------

  /** Joining distributes over concatenation of row lists. */
  lemma {:induction false} ConcatAppend(a: seq<string>, b: seq<string>)
    ensures Concat(a + b) == Concat(a) + Concat(b)
    decreases |b|
  {
    if b == [] {
      assert a + b == a;
    } else {
      var b' := b[..|b| - 1];
      assert (a + b)[..|a + b| - 1] == a + b';
      ConcatAppend(a, b');
    }
  }

  lemma {:induction false} AllocationCountAppend(a: seq<Period>, b: seq<Period>)
    ensures AllocationCount(a + b) == AllocationCount(a) + AllocationCount(b)
    decreases |b|
  {
    if b == [] {
      assert a + b == a;
    } else {
      var b' := b[..|b| - 1];
      assert (a + b)[..|a + b| - 1] == a + b';
      AllocationCountAppend(a, b');
    }
  }

  /** There is one summary row per period, numbered from 1 in list order. */
  lemma {:induction false} SummaryRowsAt(ps: seq<Period>, fmt: real -> string)
    ensures |SummaryRows(ps, fmt)| == |ps|
    ensures forall k :: 0 <= k < |ps| ==> SummaryRows(ps, fmt)[k] == SummaryRow(k + 1, ps[k], fmt)
  {
    if ps != [] {
      var init := ps[..|ps| - 1];
      SummaryRowsAt(init, fmt);
      assert forall k :: 0 <= k < |init| ==> init[k] == ps[k];
    }
  }

  /** There is one detail row per allocation record of a period, in the records' order. */
  lemma {:induction false} AllocationRowsAt(n: nat, date: string, rs: seq<PartnerAllocation>, fmt: real -> string)
    ensures |AllocationRows(n, date, rs, fmt)| == |rs|
    ensures forall j :: 0 <= j < |rs| ==> AllocationRows(n, date, rs, fmt)[j] == DetailRow(n, date, rs[j], fmt)
  {
    if rs != [] {
      var init := rs[..|rs| - 1];
      AllocationRowsAt(n, date, init, fmt);
      assert forall j :: 0 <= j < |init| ==> init[j] == rs[j];
    }
  }

  /** There is one detail row per allocation record of every period. */
  lemma {:induction false} DetailRowsCount(ps: seq<Period>, fmt: real -> string)
    ensures |DetailRows(ps, fmt)| == AllocationCount(ps)
  {
    if ps != [] {
      DetailRowsCount(ps[..|ps| - 1], fmt);
      AllocationRowsAt(|ps|, ps[|ps| - 1].date, ps[|ps| - 1].partners, fmt);
    }
  }

  /**
   * The detail rows come in nested order: the rows of period k (numbered k+1)
   * follow the rows of every earlier period, partner by partner.
   */
  lemma {:induction false} DetailRowsAt(ps: seq<Period>, fmt: real -> string, k: nat, j: nat)
    requires k < |ps| && j < |ps[k].partners|
    ensures AllocationCount(ps[..k]) + j < |DetailRows(ps, fmt)|
    ensures DetailRows(ps, fmt)[AllocationCount(ps[..k]) + j] == DetailRow(k + 1, ps[k].date, ps[k].partners[j], fmt)
    decreases |ps|
  {
    var init := ps[..|ps| - 1];
    DetailRowsCount(init, fmt);
    DetailRowsCount(ps, fmt);
    if k == |ps| - 1 {
      assert ps[..k] == init;
      AllocationRowsAt(k + 1, ps[k].date, ps[k].partners, fmt);
    } else {
      assert init[..k] == ps[..k] && init[k] == ps[k];
      DetailRowsAt(init, fmt, k, j);
    }
  }

  /**
   * The layout of the export: the summary header, one summary row per period
   * in order, the allocations title, the detail header, then the detail rows.
   */
  lemma CsvRowsLayout(ps: seq<Period>, fmt: real -> string)
    ensures var rows := CsvRows(ps, fmt);
            && |rows| == |ps| + 3 + AllocationCount(ps)
            && rows[0] == SummaryHeader
            && (forall k :: 0 <= k < |ps| ==> rows[k + 1] == SummaryRow(k + 1, ps[k], fmt))
            && rows[|ps| + 1] == AllocationsTitle
            && rows[|ps| + 2] == DetailHeader
            && rows[|ps| + 3..] == DetailRows(ps, fmt)
  {
    DetailRowsCount(ps, fmt);
    SummaryRowsAt(ps, fmt);
    RowsLayout(SummaryHeader, SummaryRows(ps, fmt), AllocationsTitle, DetailHeader, DetailRows(ps, fmt));
  }

  lemma RowsLayout(h: string, s: seq<string>, t: string, dh: string, d: seq<string>)
    ensures var rows := [h] + s + [t, dh] + d;
            && |rows| == |s| + 3 + |d|
            && rows[0] == h
            && (forall k :: 0 <= k < |s| ==> rows[k + 1] == s[k])
            && rows[|s| + 1] == t && rows[|s| + 2] == dh
            && rows[|s| + 3..] == d
  {
  }

  /**
   * A summary row starts with the period's number and date and ends with its
   * notes, emitted verbatim between double quotes (nothing in them is escaped).
   */
  lemma SummaryRowShape(n: nat, p: Period, fmt: real -> string)
    ensures var r := SummaryRow(n, p, fmt);
            var lead := NatToString(n) + "," + p.date + ",";
            && |r| > |lead| + |p.notes| + 3 && r[..|lead|] == lead
            && r[|r| - |p.notes| - 3..] == "\"" + p.notes + "\"\n"
  {
  }

  /** A detail row starts with the period's number, its date and the partner's name. */
  lemma DetailRowShape(n: nat, date: string, a: PartnerAllocation, fmt: real -> string)
    ensures var r := DetailRow(n, date, a, fmt);
            var lead := NatToString(n) + "," + date + "," + a.name + ",";
            |r| > |lead| && r[..|lead|] == lead && r[|r| - 1] == '\n'
  {
  }

  /** The exported text starts with the summary header. */
  lemma CsvTextStartsWithHeader(ps: seq<Period>, fmt: real -> string)
    ensures var text := CsvText(ps, fmt);
            |text| >= |SummaryHeader| && text[..|SummaryHeader|] == SummaryHeader
  {
    var rows := CsvRows(ps, fmt);
    assert rows == [SummaryHeader] + rows[1..];
    ConcatAppend([SummaryHeader], rows[1..]);
    assert [SummaryHeader][..0] == [];
  }
}
