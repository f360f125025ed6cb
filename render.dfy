/**
 * The quote table: a header of term columns, then one row per selected tier
 * whose cells price that tier for each selected term. The page's markup is
 * replaced by a structured value; currency formatting is not modelled.
 */
module Render {
  import opened Wrappers
  import opened Pricing
  import opened Selection

  /** The discount badges a cell can carry. */
  datatype Badge =
    | ManualBadge(percent: real)
    | BulkBadge(percent: real)
    | MultiYearBadge(percent: real)

  /** A cell as shown in compact mode (final price and badges) or in detailed
      mode (also the full price, the total discount and the price per user per year). */
  datatype Cell =
    | Compact(finalPrice: real, badges: seq<Badge>)
    | Detailed(
        fullPrice: real,
        badges: seq<Badge>,
        discountPercent: real,
        discountValue: real,
        perUserPerYear: Option<real>,
        finalPrice: real)

  /** One table row: the user count, the tier name and one cell per term. */
  datatype Row = Row(users: int, tier: string, cells: seq<Cell>)

  /** What the results area shows: the "please enter users" notice, or a table. */
  datatype Output = Placeholder | Table(header: seq<string>, rows: seq<Row>)

  /** The column heading of a term: its number, then "Year", plural above one. */
  function TermLabel(term: nat): string {
    NatToString(term) + (if term > 1 then " Years" else " Year")
  }

  /** A term heading starts with the term written in digits, which reads back as
      the term, and the unit word is plural exactly when the term exceeds one. */
  lemma TermLabelReadsBack(term: nat)
    ensures var heading := TermLabel(term);
      var k := |NatToString(term)|;
      k < |heading| && IsDigits(heading[..k]) && DecimalValue(heading[..k]) == term &&
      (heading[k..] == " Years" <==> term > 1) &&
      (heading[k..] == " Year" <==> term <= 1)
  {
    var heading := TermLabel(term);
    var k := |NatToString(term)|;
    assert heading[..k] == NatToString(term);
    DecimalValueOfNatToString(term);
  }

  /** A run of digits at the start of a text, ended by a non-digit, has one length. */
  lemma DigitRunLength(h: string, k1: nat, k2: nat)
    requires k1 < |h| && (forall i :: 0 <= i < k1 ==> IsDigit(h[i])) && !IsDigit(h[k1])
    requires k2 < |h| && (forall i :: 0 <= i < k2 ==> IsDigit(h[i])) && !IsDigit(h[k2])
    ensures k1 == k2
  {
  }

  /** Different terms get different column headings. */
  lemma TermLabelsDistinct(a: nat, b: nat)
    ensures TermLabel(a) == TermLabel(b) ==> a == b
  {
    if TermLabel(a) == TermLabel(b) {
      var heading := TermLabel(a);
      var ka, kb := |NatToString(a)|, |NatToString(b)|;
      TermLabelReadsBack(a);
      TermLabelReadsBack(b);
      DigitRunLength(heading, ka, kb);
      assert heading[..ka] == NatToString(a) && heading[..kb] == NatToString(b);
    }
  }

  /** The badges of a cell. A manual discount shows alone; otherwise a bulk badge
      appears exactly when the bulk discount is positive and a multi-year badge
      exactly when the term discount is, in that order. */
  function Badges(manual: Option<real>, r: PriceResult): (b: seq<Badge>)
    ensures manual.Some? ==> b == [ManualBadge(manual.value)]
    ensures manual.None? ==>
      |b| <= 2 &&
      (forall x :: x in b ==> x == BulkBadge(r.userDisc) || x == MultiYearBadge(r.termDisc)) &&
      (BulkBadge(r.userDisc) in b <==> r.userDisc > 0.0) &&
      (MultiYearBadge(r.termDisc) in b <==> r.termDisc > 0.0) &&
      (|b| == 2 ==> b == [BulkBadge(r.userDisc), MultiYearBadge(r.termDisc)])
  {
    match manual
    case Some(m) => [ManualBadge(m)]
    case None =>
      (if r.userDisc > 0.0 then [BulkBadge(r.userDisc)] else []) +
      (if r.termDisc > 0.0 then [MultiYearBadge(r.termDisc)] else [])
  }

  /** The cell for one (tier, term) pair: the quote is computed once; the
      detailed mode recomputes the full price from the price table. */
  function PriceCell(users: int, tier: Tier, term: nat, manual: Option<real>, showDetails: bool): (c: Cell)
    ensures var r := CalculatePrice(users, tier, term, manual);
      c.finalPrice == r.finalPrice && c.badges == Badges(manual, r) &&
      (c.Detailed? <==> showDetails) &&
      (c.Detailed? ==>
        c.fullPrice == r.basePrice && c.discountPercent == r.discountPercent &&
        c.discountValue == r.discountValue && c.perUserPerYear == r.perUserPerYear)
  {
    var r := CalculatePrice(users, tier, term, manual);
    var badges := Badges(manual, r);
    if showDetails then
      Detailed(UnitPrice(tier) * (users as real) * (term as real), badges,
               r.discountPercent, r.discountValue, r.perUserPerYear, r.finalPrice)
    else
      Compact(r.finalPrice, badges)
  }

  /** Badges in terms of the inputs: the same in both modes; with a manual
      discount only its badge; otherwise a bulk badge exactly from 10 users and
      a multi-year badge exactly for a 3- or 5-year term. */
  lemma CellBadges(users: int, tier: Tier, term: nat, manual: Option<real>)
    ensures PriceCell(users, tier, term, manual, true).badges ==
            PriceCell(users, tier, term, manual, false).badges
    ensures manual.Some? ==>
      PriceCell(users, tier, term, manual, false).badges == [ManualBadge(manual.value)]
    ensures manual.None? ==>
      var b := PriceCell(users, tier, term, manual, false).badges;
      (BulkBadge(BulkDiscount(users)) in b <==> users >= 10) &&
      (MultiYearBadge(10.0) in b <==> term == 3 || term == 5)
  {
  }

  /** No key of the price table is all digits, so a selected tier stays text. */
  lemma TierNameIsText(tier: Tier)
    ensures ParseOption(TierName(tier)) == Text(TierName(tier))
  {
    assert !IsDigit(TierName(tier)[0]);
  }

  /** The heading row: the two fixed columns, then one column per selected term. */
  method RenderHeader(years: seq<SelectedValue>) returns (header: seq<string>)
    requires forall k :: 0 <= k < |years| ==> years[k].Num?
    ensures |header| == |years| + 2
    ensures header[0] == "Total Users" && header[1] == "Product Tier"
    ensures forall k :: 0 <= k < |years| ==> header[k + 2] == TermLabel(years[k].n)
  {
    header := ["Total Users", "Product Tier"];
    var j := 0;
    while j < |years|
      invariant 0 <= j <= |years|
      invariant |header| == j + 2
      invariant header[0] == "Total Users" && header[1] == "Product Tier"
      invariant forall k :: 0 <= k < j ==> header[k + 2] == TermLabel(years[k].n)
    {
      header := header + [TermLabel(years[j].n)];
      j := j + 1;
    }
  }

  /** The cells of one tier's row: one quote per selected term, in selection order. */
  method RenderRow(
    count: int, tier: Tier, years: seq<SelectedValue>, manual: Option<real>, showDetails: bool)
    returns (cells: seq<Cell>)
    requires forall k :: 0 <= k < |years| ==> years[k].Num?
    ensures |cells| == |years|
    ensures forall k :: 0 <= k < |years| ==>
      cells[k] == PriceCell(count, tier, years[k].n, manual, showDetails)
  {
    cells := [];
    var j := 0;
    while j < |years|
      invariant 0 <= j <= |years|
      invariant |cells| == j
      invariant forall k :: 0 <= k < j ==>
        cells[k] == PriceCell(count, tier, years[k].n, manual, showDetails)
    {
      cells := cells + [PriceCell(count, tier, years[j].n, manual, showDetails)];
      j := j + 1;
    }
  }

  /** The table for a valid selection: the heading row, then for each selected
      tier, in order, its row of quotes. The ghost `priced` counts the quotes. */
  method BuildTable(
    count: int, manual: Option<real>, showDetails: bool,
    tiers: seq<SelectedValue>, years: seq<SelectedValue>)
    returns (out: Output, ghost priced: nat)
    requires forall k :: 0 <= k < |tiers| ==> tiers[k].Text? && LookupTier(tiers[k].s).Some?
    requires forall k :: 0 <= k < |years| ==> years[k].Num?
    ensures out.Table?
    ensures priced == |tiers| * |years|
    ensures |out.header| == |years| + 2
    ensures out.header[0] == "Total Users" && out.header[1] == "Product Tier"
    ensures forall j :: 0 <= j < |years| ==> out.header[j + 2] == TermLabel(years[j].n)
    ensures |out.rows| == |tiers|
    ensures forall i :: 0 <= i < |tiers| ==>
      out.rows[i].users == count && out.rows[i].tier == tiers[i].s &&
      |out.rows[i].cells| == |years|
    ensures forall i, j :: 0 <= i < |tiers| && 0 <= j < |years| ==>
      out.rows[i].cells[j] ==
        PriceCell(count, LookupTier(tiers[i].s).value, years[j].n, manual, showDetails)
  {
    var header := RenderHeader(years);
    var rows: seq<Row> := [];
    priced := 0;
    var i := 0;
    while i < |tiers|
      invariant 0 <= i <= |tiers|
      invariant |rows| == i
      invariant priced == i * |years|
      invariant forall a :: 0 <= a < i ==>
        rows[a].users == count && rows[a].tier == tiers[a].s && |rows[a].cells| == |years|
      invariant forall a, b :: 0 <= a < i && 0 <= b < |years| ==>
        rows[a].cells[b] ==
          PriceCell(count, LookupTier(tiers[a].s).value, years[b].n, manual, showDetails)
    {
      var tier := LookupTier(tiers[i].s).value;
      var cells := RenderRow(count, tier, years, manual, showDetails);
      assert (i + 1) * |years| == i * |years| + |years|;
      priced := priced + |cells|;
      ghost var done := rows;
      rows := rows + [Row(count, tiers[i].s, cells)];
      assert forall a :: 0 <= a < i ==> rows[a] == done[a];
      assert rows[i].cells == cells;
      i := i + 1;
    }
    out := Table(header, rows);
  }

  /** Builds the results area from the parsed user count (`None` when it is not
      a number), the manual-discount field's raw text and the number it parses
      to, the details flag, and the selected tier and term options: the notice
      when the user count is 0 or not a number or either list is empty, and
      otherwise the table. The ghost `priced` counts the quotes computed. */
  method RenderTable(
    users: Option<int>, manualRaw: string, manualParsed: real, showDetails: bool,
    tierOptions: seq<string>, termOptions: seq<string>)
    returns (out: Output, ghost priced: nat)
    requires forall k :: 0 <= k < |tierOptions| ==> LookupTier(tierOptions[k]).Some?
    requires forall k :: 0 <= k < |termOptions| ==> IsDigits(termOptions[k])
    ensures out.Placeholder? <==>
      users.None? || users.value == 0 || tierOptions == [] || termOptions == []
    ensures out.Placeholder? ==> priced == 0
    ensures out.Table? ==>
      priced == |tierOptions| * |termOptions| &&
      |out.header| == |termOptions| + 2 &&
      out.header[0] == "Total Users" && out.header[1] == "Product Tier" &&
      (forall j :: 0 <= j < |termOptions| ==>
        out.header[j + 2] == TermLabel(ParseOption(termOptions[j]).n)) &&
      |out.rows| == |tierOptions| &&
      (forall i :: 0 <= i < |tierOptions| ==>
        out.rows[i].users == users.value && out.rows[i].tier == tierOptions[i] &&
        |out.rows[i].cells| == |termOptions|) &&
      (forall i, j :: 0 <= i < |tierOptions| && 0 <= j < |termOptions| ==>
        out.rows[i].cells[j] ==
          PriceCell(users.value, LookupTier(tierOptions[i]).value, ParseOption(termOptions[j]).n,
                    ManualDiscount(manualRaw, manualParsed), showDetails))
  {
    var manual := ManualDiscount(manualRaw, manualParsed);
    var tiers := SelectedValues(tierOptions);
    var years := SelectedValues(termOptions);
    if users.None? || users.value == 0 || |tiers| == 0 || |years| == 0 {
      return Placeholder, 0;
    }
    forall k | 0 <= k < |tiers|
      ensures tiers[k] == Text(tierOptions[k])
    {
      TierNameIsText(LookupTier(tierOptions[k]).value);
    }
    out, priced := BuildTable(users.value, manual, showDetails, tiers, years);
  }
}
