/** Exact lookups of the synthesis and purification rows (compute_cost_syn, compute_cost_pur). */
module Lookup {
  import opened Outcomes
  import opened Seqs
  import opened Catalog

  /** The synthesis scale of an order line, in micromoles. */
  datatype Tier = One | PointTwo

  /** How Python prints the normalised amount: `1` for the int 1, `0.2` for the float 0.2. */
  function TierLabel(t: Tier): string
  {
    match t
    case One => "1"
    case PointTwo => "0.2"
  }

  /** The amount check of the order loop: only 1 (or 1.0) and 0.2 are accepted. */
  function ParseTier(amount: real): (r: Result<Tier>)
    ensures r.Ok? <==> amount == 1.0 || amount == 0.2
    ensures r == Ok(One) <==> amount == 1.0
    ensures r == Ok(PointTwo) <==> amount == 0.2
    ensures r.Err? ==> r.error == InvalidAmount
  {
    if amount == 1.0 then Ok(One)
    else if amount == 0.2 then Ok(PointTwo)
    else Err(InvalidAmount)
  }

  /** The words that mark the two service rows; the matcher's candidates are the rows without them. */
  const SynthesisWord := "synthesis"
  const PurificationWord := "purification"

  /** `f'Modified primer synthesis {amount} umoles'`. */
  function SynthesisLabel(t: Tier): string
  {
    "Modified primer " + SynthesisWord + " " + TierLabel(t) + " umoles"
  }

  /** `f'Modified {amount} umoles oligo purification HPLC'`. */
  function PurificationLabel(t: Tier): string
  {
    "Modified " + TierLabel(t) + " umoles oligo " + PurificationWord + " HPLC"
  }

  predicate DescIs(wanted: string, row: Row)
  {
    row.desc == wanted
  }

  /** Row `i` is the only row of `table` whose description is exactly `wanted`. */
  predicate OnlyRow(table: seq<Row>, wanted: string, i: int)
  {
    0 <= i < |table| && table[i].desc == wanted
    && forall j :: 0 <= j < |table| && table[j].desc == wanted ==> j == i
  }

  /** `df[df.품명 == wanted]['단가']` when that selects exactly one row; `None` for zero or several. */
  function UniquePrice(table: seq<Row>, wanted: string): (r: Option<int>)
    ensures r.Some? <==> exists i :: OnlyRow(table, wanted, i)
    ensures forall i :: OnlyRow(table, wanted, i) ==> r == Some(table[i].unitPrice)
  {
    var p := (row: Row) => DescIs(wanted, row);
    var hits := Filter(table, p);
    FilterFacts(table, p);
    CountOne(table, p);
    assert forall i :: OnlyRow(table, wanted, i) <==> OnlyAt(table, p, i);
    if |hits| == 1 then
      assert hits[0] in hits;
      Some(hits[0].unitPrice)
    else None
  }

  /** compute_cost_syn: the unit price of the one synthesis row of the tier. */
  function CostSyn(table: seq<Row>, t: Tier): (r: Result<int>)
    ensures r.Ok? <==> exists i :: OnlyRow(table, SynthesisLabel(t), i)
    ensures forall i :: OnlyRow(table, SynthesisLabel(t), i) ==> r == Ok(table[i].unitPrice)
    ensures r.Err? ==> r.error == SynthesisRowCount
  {
    match UniquePrice(table, SynthesisLabel(t))
    case None => Err(SynthesisRowCount)
    case Some(price) => Ok(price)
  }

  /** compute_cost_pur: the unit price of the one HPLC purification row of the tier. */
  function CostPur(table: seq<Row>, t: Tier): (r: Result<int>)
    ensures r.Ok? <==> exists i :: OnlyRow(table, PurificationLabel(t), i)
    ensures forall i :: OnlyRow(table, PurificationLabel(t), i) ==> r == Ok(table[i].unitPrice)
    ensures r.Err? ==> r.error == PurificationRowCount
  {
    match UniquePrice(table, PurificationLabel(t))
    case None => Err(PurificationRowCount)
    case Some(price) => Ok(price)
  }

  /** A table without any row for the wanted fails the lookup too, not only one with duplicates. */
  lemma MissingRowFails(table: seq<Row>, t: Tier)
    requires forall k :: 0 <= k < |table| ==> table[k].desc != SynthesisLabel(t) && table[k].desc != PurificationLabel(t)
    ensures CostSyn(table, t) == Err(SynthesisRowCount)
    ensures CostPur(table, t) == Err(PurificationRowCount)
  {
  }

  /** Two equal descriptions make the lookup fail even when both rows carry the same price. */
  lemma DuplicateRowFails(table: seq<Row>, t: Tier, i: int, j: int, wanted: string)
    requires 0 <= i < j < |table|
    requires wanted == SynthesisLabel(t) || wanted == PurificationLabel(t)
    requires table[i].desc == wanted && table[j].desc == wanted
    ensures wanted == SynthesisLabel(t) ==> CostSyn(table, t) == Err(SynthesisRowCount)
    ensures wanted == PurificationLabel(t) ==> CostPur(table, t) == Err(PurificationRowCount)
  {
  }

  /** The lookups read only descriptions and unit prices, never the amount columns. */
  lemma {:induction false} UniquePriceSamePrices(t: seq<Row>, u: seq<Row>, wanted: string)
    requires SamePrices(t, u)
    ensures UniquePrice(t, wanted) == UniquePrice(u, wanted)
  {
    forall i | 0 <= i < |t| ensures OnlyRow(t, wanted, i) == OnlyRow(u, wanted, i) {
      assert forall j :: 0 <= j < |t| ==> (t[j].desc == wanted) == (u[j].desc == wanted);
    }
    if exists i :: OnlyRow(t, wanted, i) {
      var i :| OnlyRow(t, wanted, i);
      assert OnlyRow(u, wanted, i);
    }
    if exists i :: OnlyRow(u, wanted, i) {
      var i :| OnlyRow(u, wanted, i);
      assert OnlyRow(t, wanted, i);
    }
  }
}
