/**
 * The order loop of run.py: every order line is priced from the normalised
 * billing table, the expected total is accumulated, a statement entry is
 * recorded per oligo name, and the expected total is compared with the
 * invoiced one.
 */
module Reconcile {
  import opened Outcomes
  import opened Seqs
  import opened Text
  import opened Currency
  import opened Catalog
  import opened Lookup
  import opened Modification

  /** A row of the order spreadsheet: Oligo Name, Amount, mer, 5`Mod, 3`Mod. */
  datatype OrderLine = OrderLine(name: string, amount: real, mer: int, mod5: string, mod3: string)

  /** The figures computed for one order line. */
  datatype Priced = Priced(
    name: string, tier: Tier, synUnit: int, mer: int, synSubtotal: int,
    modification: int, purification: int, price: int, tax: int)

  /** The statement record stored in `data` for an oligo name. */
  datatype Entry = Entry(
    standard: string, quantity: nat, unitPrice: string, supplied: string, tax: string, remark: string,
    synUnit: int, mer: int, synSubtotal: int, modification: int, purification: int)

  /** What a completed run produces: the statement records, their order, both totals and the verdict. */
  datatype Report = Report(
    data: map<string, Entry>, keyOrder: seq<string>, expectedTotal: int, actualTotal: int, matches: bool)

  /** `int(price / 10)`: a tenth of the price, truncated toward zero. */
  function Tax(price: int): (t: int)
    ensures price >= 0 ==> 0 <= t && t * 10 <= price < t * 10 + 10
    ensures price < 0 ==> t <= 0 && t * 10 - 10 < price <= t * 10
  {
    if price >= 0 then price / 10 else -((-price) / 10)
  }

  /** The body of the order loop for one line, up to the point where its figures are known. */
  function LineCost(table: seq<Row>, line: OrderLine, matcher: Matcher): Result<Priced>
  {
    var tier :- ParseTier(line.amount);
    Assemble(line, tier, CostSyn(table, tier), CostMod(table, Strip(line.mod5), Strip(line.mod3), matcher),
             CostPur(table, tier))
  }

  /** The three price lookups of a line, taken in order, then combined into its figures. */
  function Assemble(line: OrderLine, tier: Tier, syn: Result<int>, mod: Result<int>, pur: Result<int>): Result<Priced>
  {
    var s :- syn;
    var m :- mod;
    var p :- pur;
    var subtotal := s * line.mer;
    var price := subtotal + m + p;
    Ok(Priced(line.name, tier, s, line.mer, subtotal, m, p, price, Tax(price)))
  }

  function LineCostOf(table: seq<Row>, matcher: Matcher): OrderLine -> Result<Priced>
  {
    line => LineCost(table, line, matcher)
  }

  /** The figures of every order line, in order, or the error of the first line that fails. */
  function Costs(table: seq<Row>, orders: seq<OrderLine>, matcher: Matcher): Result<seq<Priced>>
  {
    Traverse(orders, LineCostOf(table, matcher))
  }

  /** The statement record for a priced line: `'{:,}'` renderings of price and tax, plus the audit columns. */
  function EntryOf(p: Priced, orderId: string): Entry
  {
    Entry(TierLabel(p.tier) + "umole", 1, Grouped(p.price), Grouped(p.price), Grouped(p.tax), orderId,
          p.synUnit, p.mer, p.synSubtotal, p.modification, p.purification)
  }

  /** `expected_total`: price plus tax, summed over the lines in order. */
  function ExpectedTotal(ps: seq<Priced>): int
  {
    if ps == [] then 0 else ExpectedTotal(ps[..|ps| - 1]) + ps[|ps| - 1].price + ps[|ps| - 1].tax
  }

  /** Line `i` is the last one carrying its name. */
  predicate LastWithName(ps: seq<Priced>, i: int)
  {
    0 <= i < |ps| && forall j :: i < j < |ps| ==> ps[j].name != ps[i].name
  }

  /** A dictionary filled line by line with `d[p.name] = record(p)`. */
  function LastWins<V>(ps: seq<Priced>, record: Priced -> V): map<string, V>
  {
    if ps == [] then map[]
    else LastWins(ps[..|ps| - 1], record)[ps[|ps| - 1].name := record(ps[|ps| - 1])]
  }

  /** The dictionary has exactly the names of the lines as keys. */
  lemma {:induction false} LastWinsKeys<V>(ps: seq<Priced>, record: Priced -> V)
    ensures forall n :: n in LastWins(ps, record) <==> exists i :: 0 <= i < |ps| && ps[i].name == n
  {
    if ps != [] {
      var init, last := ps[..|ps| - 1], ps[|ps| - 1];
      LastWinsKeys(init, record);
      forall n ensures n in LastWins(ps, record) <==> exists i :: 0 <= i < |ps| && ps[i].name == n {
        assert LastWins(ps, record) == LastWins(init, record)[last.name := record(last)];
        if n in LastWins(ps, record) && n != last.name {
          var i :| 0 <= i < |init| && init[i].name == n;
          assert ps[i].name == n;
        }
        if exists i :: 0 <= i < |ps| && ps[i].name == n {
          var i :| 0 <= i < |ps| && ps[i].name == n;
          if i < |init| {
            assert init[i].name == n;
          }
        }
      }
    }
  }

  /** Under each name the dictionary holds the record of the last line with that name. */
  lemma {:induction false} LastWinsValues<V>(ps: seq<Priced>, record: Priced -> V)
    ensures forall i :: LastWithName(ps, i) ==>
      (ps[i].name in LastWins(ps, record) && LastWins(ps, record)[ps[i].name] == record(ps[i]))
  {
    if ps != [] {
      var init, last := ps[..|ps| - 1], ps[|ps| - 1];
      LastWinsValues(init, record);
      forall i | LastWithName(ps, i)
        ensures ps[i].name in LastWins(ps, record) && LastWins(ps, record)[ps[i].name] == record(ps[i])
      {
        if i < |init| {
          assert init[i] == ps[i];
          assert LastWithName(init, i);
        }
      }
    }
  }

  function EntryFor(orderId: string): Priced -> Entry
  {
    p => EntryOf(p, orderId)
  }

  /** `data`: one statement record per distinct oligo name, that of the last line with the name. */
  function Statement(ps: seq<Priced>, orderId: string): map<string, Entry>
  {
    LastWins(ps, EntryFor(orderId))
  }

  /** The keys of `data` in insertion order: a re-assigned name keeps its first position. */
  function KeyOrder(ps: seq<Priced>): seq<string>
  {
    if ps == [] then []
    else
      var prev := KeyOrder(ps[..|ps| - 1]);
      if ps[|ps| - 1].name in prev then prev else prev + [ps[|ps| - 1].name]
  }

  /** The key order lists every name of the lines exactly once. */
  lemma {:induction false} KeyOrderFacts(ps: seq<Priced>)
    ensures forall n :: n in KeyOrder(ps) <==> exists i :: 0 <= i < |ps| && ps[i].name == n
    ensures forall a, b :: 0 <= a < b < |KeyOrder(ps)| ==> KeyOrder(ps)[a] != KeyOrder(ps)[b]
  {
    if ps != [] {
      var init := ps[..|ps| - 1];
      KeyOrderFacts(init);
      assert forall i :: 0 <= i < |init| ==> init[i] == ps[i];
    }
  }

  /** The outcome once the billing table is normalised. */
  function Reconciled(table: seq<Row>, orders: seq<OrderLine>, matcher: Matcher, orderId: string): (r: Result<Report>)
    ensures r.Ok? <==> Costs(table, orders, matcher).Ok?
    ensures r.Ok? ==> r.value.actualTotal == ActualTotal(table)
    ensures r.Ok? ==> (r.value.matches <==> r.value.expectedTotal == ActualTotal(table))
  {
    var ps :- Costs(table, orders, matcher);
    var expected := ExpectedTotal(ps);
    var actual := ActualTotal(table);
    Ok(Report(Statement(ps, orderId), KeyOrder(ps), expected, actual, expected == actual))
  }

  /** One more line: its price and tax join the total, its record overwrites its name, a new name is appended. */
  lemma AppendLine(done: seq<Priced>, p: Priced, record: Priced -> Entry)
    ensures ExpectedTotal(done + [p]) == ExpectedTotal(done) + p.price + p.tax
    ensures LastWins(done + [p], record) == LastWins(done, record)[p.name := record(p)]
    ensures KeyOrder(done + [p]) == if p.name in LastWins(done, record) then KeyOrder(done) else KeyOrder(done) + [p.name]
  {
    assert (done + [p])[..|done|] == done;
    LastWinsKeys(done, record);
  }

  /** A whole run: normalise the billing table, then price and reconcile the order. */
  function Run(raw: seq<RawRow>, orders: seq<OrderLine>, matcher: Matcher, orderId: string): Result<Report>
  {
    var table :- Normalize(raw);
    Reconciled(table, orders, matcher, orderId)
  }

  /** The figures of a priced line: price is synthesis subtotal plus modification plus purification, tax its truncated tenth. */
  lemma LinePriceDecomposes(table: seq<Row>, line: OrderLine, matcher: Matcher)
    requires LineCost(table, line, matcher).Ok?
    ensures var p := LineCost(table, line, matcher).value;
      && p.name == line.name && p.mer == line.mer
      && ParseTier(line.amount) == Ok(p.tier)
      && CostSyn(table, p.tier) == Ok(p.synUnit)
      && CostMod(table, Strip(line.mod5), Strip(line.mod3), matcher) == Ok(p.modification)
      && CostPur(table, p.tier) == Ok(p.purification)
      && p.synSubtotal == p.synUnit * line.mer
      && p.price == p.synSubtotal + p.modification + p.purification
      && p.tax == Tax(p.price)
      && (p.price >= 0 ==> p.tax * 10 <= p.price < p.tax * 10 + 10)
      && (p.price < 0 ==> p.tax * 10 - 10 < p.price <= p.tax * 10)
  {
  }

  /** A line fails with the first failing step: amount, then synthesis, modification, purification. */
  lemma LineCostErrors(table: seq<Row>, line: OrderLine, matcher: Matcher)
    ensures ParseTier(line.amount).Err? ==> LineCost(table, line, matcher) == Err(InvalidAmount)
    ensures ParseTier(line.amount).Ok? ==>
      var t := ParseTier(line.amount).value;
      && (CostSyn(table, t).Err? ==> LineCost(table, line, matcher) == Err(SynthesisRowCount))
      && (CostSyn(table, t).Ok? && CostMod(table, Strip(line.mod5), Strip(line.mod3), matcher).Err? ==>
            LineCost(table, line, matcher) == Err(CostMod(table, Strip(line.mod5), Strip(line.mod3), matcher).error))
      && (CostSyn(table, t).Ok? && CostMod(table, Strip(line.mod5), Strip(line.mod3), matcher).Ok? && CostPur(table, t).Err? ==>
            LineCost(table, line, matcher) == Err(PurificationRowCount))
  {
  }

  /** An amount other than 1 and 0.2 fails the line whatever the table and the matcher. */
  lemma InvalidAmountFailsBeforeLookups(t1: seq<Row>, t2: seq<Row>, line: OrderLine, m1: Matcher, m2: Matcher)
    requires line.amount != 1.0 && line.amount != 0.2
    ensures LineCost(t1, line, m1) == LineCost(t2, line, m2) == Err(InvalidAmount)
  {
  }

  /** The price is linear in the length: `d` more monomers add `d` times the synthesis unit price. */
  lemma PriceLinearInMer(table: seq<Row>, line: OrderLine, matcher: Matcher, d: int)
    requires LineCost(table, line, matcher).Ok?
    ensures LineCost(table, line.(mer := line.mer + d), matcher).Ok?
    ensures LineCost(table, line.(mer := line.mer + d), matcher).value.price
         == LineCost(table, line, matcher).value.price + LineCost(table, line, matcher).value.synUnit * d
  {
    var longer := line.(mer := line.mer + d);
    var tier := ParseTier(line.amount).value;
    var syn := CostSyn(table, tier);
    var mod := CostMod(table, Strip(line.mod5), Strip(line.mod3), matcher);
    var pur := CostPur(table, tier);
    assert LineCost(table, line, matcher) == Assemble(line, tier, syn, mod, pur);
    assert LineCost(table, longer, matcher) == Assemble(longer, tier, syn, mod, pur);
    AssemblePrice(line, tier, syn, mod, pur);
    AssemblePrice(longer, tier, syn, mod, pur);
    var before, after := LineCost(table, line, matcher).value, LineCost(table, longer, matcher).value;
    var grow := syn.value * d;
    assert before.synUnit * d == grow;
    Distribute(syn.value, longer.mer, line.mer, d);
  }

  lemma AssemblePrice(line: OrderLine, tier: Tier, syn: Result<int>, mod: Result<int>, pur: Result<int>)
    requires syn.Ok? && mod.Ok? && pur.Ok?
    ensures Assemble(line, tier, syn, mod, pur).Ok?
    ensures Assemble(line, tier, syn, mod, pur).value.synUnit == syn.value
    ensures Assemble(line, tier, syn, mod, pur).value.price == syn.value * line.mer + mod.value + pur.value
  {
  }

  lemma Distribute(a: int, sum: int, b: int, c: int)
    requires sum == b + c
    ensures a * sum == a * b + a * c
  {
  }

  /** The price and tax cells of a statement record read back, under the billing table's parsing, as the figures. */
  lemma EntryAmountsReadBack(p: Priced, orderId: string)
    ensures ParseCell(EntryOf(p, orderId).unitPrice) == Some(p.price)
    ensures ParseCell(EntryOf(p, orderId).supplied) == Some(p.price)
    ensures ParseCell(EntryOf(p, orderId).tax) == Some(p.tax)
  {
    CellRoundTrip(p.price);
    CellRoundTrip(p.tax);
  }

  /** The order line `i` is the last one with its oligo name. */
  predicate LastOrderWithName(orders: seq<OrderLine>, i: int)
  {
    0 <= i < |orders| && forall j :: i < j < |orders| ==> orders[j].name != orders[i].name
  }

  /**
   * After a successful run `data` has one key per distinct oligo name of the
   * order, and under it the record of the last order line with that name.
   */
  lemma StatementIsLastWriteWins(table: seq<Row>, orders: seq<OrderLine>, matcher: Matcher, orderId: string)
    requires Reconciled(table, orders, matcher, orderId).Ok?
    ensures var data := Reconciled(table, orders, matcher, orderId).value.data;
      && (forall n :: n in data <==> exists i :: 0 <= i < |orders| && orders[i].name == n)
      && (forall i :: LastOrderWithName(orders, i) ==>
            orders[i].name in data && LineCost(table, orders[i], matcher).Ok?
            && data[orders[i].name] == EntryOf(LineCost(table, orders[i], matcher).value, orderId))
  {
    var ps := Costs(table, orders, matcher).value;
    CostsKeepNames(table, orders, matcher);
    LastWinsByOrder(orders, ps, EntryFor(orderId));
  }

  /** The figures of every line carry that line's oligo name. */
  lemma CostsKeepNames(table: seq<Row>, orders: seq<OrderLine>, matcher: Matcher)
    requires Costs(table, orders, matcher).Ok?
    ensures var ps := Costs(table, orders, matcher).value;
      && |ps| == |orders|
      && forall i :: 0 <= i < |orders| ==> LineCost(table, orders[i], matcher) == Ok(ps[i]) && ps[i].name == orders[i].name
  {
    var f := LineCostOf(table, matcher);
    var ps := Costs(table, orders, matcher).value;
    TraverseFacts(orders, f);
    forall i | 0 <= i < |orders| ensures LineCost(table, orders[i], matcher) == Ok(ps[i]) && ps[i].name == orders[i].name {
      assert f(orders[i]) == Ok(ps[i]);
      LinePriceDecomposes(table, orders[i], matcher);
    }
  }

  /** `LastWins` over figures named like the order lines, read in terms of the order lines. */
  lemma LastWinsByOrder<V>(orders: seq<OrderLine>, ps: seq<Priced>, record: Priced -> V)
    requires |ps| == |orders| && forall i :: 0 <= i < |orders| ==> ps[i].name == orders[i].name
    ensures forall n :: n in LastWins(ps, record) <==> exists i :: 0 <= i < |orders| && orders[i].name == n
    ensures forall i :: LastOrderWithName(orders, i) ==>
      orders[i].name in LastWins(ps, record) && LastWins(ps, record)[orders[i].name] == record(ps[i])
  {
    LastWinsKeys(ps, record);
    LastWinsValues(ps, record);
    forall i | LastOrderWithName(orders, i) ensures LastWithName(ps, i) {
    }
  }

  /** The run stops at the first order line that cannot be priced, with that line's error. */
  lemma FirstFailingLineAborts(table: seq<Row>, orders: seq<OrderLine>, matcher: Matcher, orderId: string, i: int)
    requires FirstFailure(orders, LineCostOf(table, matcher), i)
    ensures Reconciled(table, orders, matcher, orderId) == Err(LineCost(table, orders[i], matcher).error)
  {
    TraverseFirstFailure(orders, LineCostOf(table, matcher), i);
  }

  /**
   * Ordering the same line twice more adds its price and tax twice to the
   * expected total, while `data` keeps a single record under its name.
   */
  lemma RepeatedLineCountsTwice(table: seq<Row>, orders: seq<OrderLine>, line: OrderLine, matcher: Matcher, orderId: string)
    requires Reconciled(table, orders, matcher, orderId).Ok?
    requires LineCost(table, line, matcher).Ok?
    ensures var before := Reconciled(table, orders, matcher, orderId).value;
      var p := LineCost(table, line, matcher).value;
      var after := Reconciled(table, orders + [line, line], matcher, orderId);
      && after.Ok?
      && after.value.expectedTotal == before.expectedTotal + 2 * (p.price + p.tax)
      && line.name in after.value.data && after.value.data[line.name] == EntryOf(p, orderId)
  {
    var f := LineCostOf(table, matcher);
    var ps := Costs(table, orders, matcher).value;
    var p := LineCost(table, line, matcher).value;
    TraverseTwice(line, f, p);
    TraverseAppend(orders, [line, line], f, ps, [p, p]);
    LinePriceDecomposes(table, line, matcher);
    PairAppended(ps, p, orderId);
  }

  lemma PairAppended(ps: seq<Priced>, p: Priced, orderId: string)
    ensures ExpectedTotal(ps + [p, p]) == ExpectedTotal(ps) + 2 * (p.price + p.tax)
    ensures p.name in Statement(ps + [p, p], orderId)
    ensures Statement(ps + [p, p], orderId)[p.name] == EntryOf(p, orderId)
  {
    var qs := ps + [p, p];
    assert qs[..|qs| - 1] == ps + [p] && qs[|qs| - 1] == p;
    assert (ps + [p])[..|ps|] == ps;
  }

  /** Pricing reads only descriptions and unit prices of the billing table, never its amount columns. */
  lemma LineCostSamePrices(t: seq<Row>, u: seq<Row>, line: OrderLine, matcher: Matcher)
    requires SamePrices(t, u)
    ensures LineCost(t, line, matcher) == LineCost(u, line, matcher)
  {
    var tier := ParseTier(line.amount);
    if tier.Ok? {
      UniquePriceSamePrices(t, u, SynthesisLabel(tier.value));
      UniquePriceSamePrices(t, u, PurificationLabel(tier.value));
      assert CostSyn(t, tier.value) == CostSyn(u, tier.value);
      assert CostPur(t, tier.value) == CostPur(u, tier.value);
      CostModSamePrices(t, u, Strip(line.mod5), Strip(line.mod3), matcher);
    }
  }

  /**
   * Changing the supplied and tax amounts of one billing row changes the
   * actual total by the same amount and nothing else; so a run that matched
   * no longer matches once that row's amounts sum differently.
   */
  lemma AmountChangeFlipsVerdict(table: seq<Row>, orders: seq<OrderLine>, matcher: Matcher, orderId: string, i: int, row: Row)
    requires 0 <= i < |table|
    requires row.desc == table[i].desc && row.unitPrice == table[i].unitPrice
    requires Reconciled(table, orders, matcher, orderId).Ok?
    ensures var before := Reconciled(table, orders, matcher, orderId).value;
      var after := Reconciled(table[i := row], orders, matcher, orderId);
      && after.Ok?
      && after.value.data == before.data
      && after.value.expectedTotal == before.expectedTotal
      && after.value.actualTotal == before.actualTotal - table[i].supplied - table[i].tax + row.supplied + row.tax
      && (before.matches && row.supplied + row.tax != table[i].supplied + table[i].tax ==> !after.value.matches)
  {
    var u := table[i := row];
    assert SamePrices(table, u);
    forall k | 0 <= k < |orders| ensures LineCostOf(table, matcher)(orders[k]) == LineCostOf(u, matcher)(orders[k]) {
      LineCostSamePrices(table, u, orders[k], matcher);
    }
    TraverseAgree(orders, LineCostOf(table, matcher), LineCostOf(u, matcher));
    ActualTotalUpdate(table, i, row);
  }

  /** The `__main__` body of run.py from the normalisation on (lines 106-153), proved against `Run`. */
  method Reconcile(raw: seq<RawRow>, orders: seq<OrderLine>, matcher: Matcher, orderId: string)
    returns (res: Result<Report>)
    ensures res == Run(raw, orders, matcher, orderId)
  {
    var normalized := Normalize(raw);
    if normalized.Err? {
      return Err(normalized.error);
    }
    res := PriceOrders(normalized.value, orders, matcher, orderId);
  }

  /** The loop over the order rows and the final comparison (run.py lines 114-153), proved against `Reconciled`. */
  method PriceOrders(table: seq<Row>, orders: seq<OrderLine>, matcher: Matcher, orderId: string)
    returns (res: Result<Report>)
    ensures res == Reconciled(table, orders, matcher, orderId)
  {
    var actualTotal := ActualTotal(table);
    var tally := Tally(orders, LineCostOf(table, matcher), EntryFor(orderId));
    if tally.Err? {
      return Err(tally.error);
    }
    var t := tally.value;
    res := Ok(Report(t.data, t.keyOrder, t.expectedTotal, actualTotal, t.expectedTotal == actualTotal));
  }

  /** What the order loop accumulates: the running total, `data` and its key order. */
  datatype Tallied = Tallied(expectedTotal: int, data: map<string, Entry>, keyOrder: seq<string>)

  function TallyOf(orders: seq<OrderLine>, price: OrderLine -> Result<Priced>, record: Priced -> Entry): Result<Tallied>
  {
    var ps :- Traverse(orders, price);
    Ok(Tallied(ExpectedTotal(ps), LastWins(ps, record), KeyOrder(ps)))
  }

  /** The order loop: price each line in turn, stopping at the first failure, and accumulate. */
  method Tally(orders: seq<OrderLine>, price: OrderLine -> Result<Priced>, record: Priced -> Entry)
    returns (res: Result<Tallied>)
    ensures res == TallyOf(orders, price, record)
  {
    var expectedTotal := 0;
    var data: map<string, Entry> := map[];
    var keyOrder: seq<string> := [];
    ghost var done: seq<Priced> := [];
    var i := 0;
    while i < |orders|
      invariant 0 <= i <= |orders|
      invariant Traverse(orders[..i], price) == Ok(done)
      invariant expectedTotal == ExpectedTotal(done)
      invariant data == LastWins(done, record)
      invariant keyOrder == KeyOrder(done)
    {
      var cost := price(orders[i]);
      if cost.Err? {
        TraverseFailsAt(orders, price, i, done);
        return Err(cost.error);
      }
      var p := cost.value;
      AppendLine(done, p, record);
      expectedTotal := expectedTotal + p.price + p.tax;
      if p.name !in data {
        keyOrder := keyOrder + [p.name];
      }
      data := data[p.name := record(p)];
      TraverseStep(orders, price, i, done, p);
      done := done + [p];
      i := i + 1;
    }
    assert orders[..i] == orders;
    res := Ok(Tallied(expectedTotal, data, keyOrder));
  }
}
