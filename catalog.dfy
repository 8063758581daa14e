/**
 * The billing (shipment) table: the second table extracted from the PDF,
 * with its footer rows dropped and its currency cells turned into integers.
 */
module Catalog {
  import opened Outcomes
  import opened Currency
  import opened Seqs

  /** One extracted row after the two positional columns are gone: description, 단가, 공급가액, 세액 as text. */
  datatype RawRow = RawRow(desc: string, unitPrice: string, supplied: string, tax: string)

  /** One normalised row: 품명 (description), 단가 (unit price), 공급가액 (supplied amount), 세액 (tax). */
  datatype Row = Row(desc: string, unitPrice: int, supplied: int, tax: int)

  /** Number of footer rows at the end of the extracted table. */
  const FooterRows := 2

  /** `df2.drop(df2.tail(2).index)`: everything but the last two rows (nothing when there are fewer). */
  function DropFooter(raw: seq<RawRow>): (r: seq<RawRow>)
    ensures |r| == if |raw| <= FooterRows then 0 else |raw| - FooterRows
    ensures r <= raw
  {
    if |raw| <= FooterRows then [] else raw[..|raw| - FooterRows]
  }

  /** All three currency cells of `raw` are clean integers. */
  predicate CellsParse(raw: RawRow)
  {
    ParseCell(raw.unitPrice).Some? && ParseCell(raw.supplied).Some? && ParseCell(raw.tax).Some?
  }

  /** `row` is `raw` with its currency cells parsed. */
  predicate ParsedFrom(row: Row, raw: RawRow)
  {
    row.desc == raw.desc
    && ParseCell(raw.unitPrice) == Some(row.unitPrice)
    && ParseCell(raw.supplied) == Some(row.supplied)
    && ParseCell(raw.tax) == Some(row.tax)
  }

  function ParseRow(raw: RawRow): (r: Result<Row>)
    ensures r.Ok? <==> CellsParse(raw)
    ensures r.Ok? ==> ParsedFrom(r.value, raw)
    ensures r.Err? ==> r.error == MalformedCell
  {
    if CellsParse(raw) then
      Ok(Row(raw.desc, ParseCell(raw.unitPrice).value, ParseCell(raw.supplied).value, ParseCell(raw.tax).value))
    else Err(MalformedCell)
  }

  /** The normalisation of the extracted table (run.py lines 107-111): footer dropped, every cell parsed. */
  function Normalize(raw: seq<RawRow>): (r: Result<seq<Row>>)
    ensures r.Ok? <==> forall i :: 0 <= i < |raw| - FooterRows ==> CellsParse(raw[i])
    ensures r.Ok? ==> |r.value| == (if |raw| <= FooterRows then 0 else |raw| - FooterRows)
    ensures r.Ok? ==> forall i :: 0 <= i < |r.value| ==> ParsedFrom(r.value[i], raw[i])
    ensures r.Err? ==> r.error == MalformedCell
  {
    var body := DropFooter(raw);
    var parsed := Traverse(body, ParseRow);
    TraverseFacts(body, ParseRow);
    assert forall i :: 0 <= i < |body| ==> body[i] == raw[i];
    assert parsed.Ok? <==> forall i :: 0 <= i < |body| ==> CellsParse(body[i]);
    if parsed.Err? then
      TraverseError(body, ParseRow, MalformedCell);
      parsed
    else
      var rows := parsed.value;
      assert forall i :: 0 <= i < |rows| ==> ParseRow(body[i]) == Ok(rows[i]) && ParsedFrom(rows[i], body[i]);
      parsed
  }

  function SumSupplied(t: seq<Row>): int
  {
    if t == [] then 0 else t[0].supplied + SumSupplied(t[1..])
  }

  function SumTax(t: seq<Row>): int
  {
    if t == [] then 0 else t[0].tax + SumTax(t[1..])
  }

  /** `actual_total`: the supplied column's sum plus the tax column's sum. */
  function ActualTotal(t: seq<Row>): int
  {
    SumSupplied(t) + SumTax(t)
  }

  /** Changing the amounts of one row moves the actual total by exactly that row's change. */
  lemma {:induction false} ActualTotalUpdate(t: seq<Row>, i: int, row: Row)
    requires 0 <= i < |t|
    ensures ActualTotal(t[i := row]) == ActualTotal(t) - t[i].supplied - t[i].tax + row.supplied + row.tax
  {
    var u := t[i := row];
    if i == 0 {
      assert u[1..] == t[1..];
    } else {
      ActualTotalUpdate(t[1..], i - 1, row);
      assert u[1..] == t[1..][i - 1 := row];
    }
  }

  /** `t` and `u` have the same descriptions and unit prices, row by row; only the amounts may differ. */
  predicate SamePrices(t: seq<Row>, u: seq<Row>)
  {
    |t| == |u| && forall k :: 0 <= k < |t| ==> t[k].desc == u[k].desc && t[k].unitPrice == u[k].unitPrice
  }
}
