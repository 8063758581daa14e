/**
 * A worked order: one line with a 5`FAM / 3`BHQ1 dual label against a
 * billing table with one synthesis row, one purification row and a single
 * modification row, so the matcher is never consulted.
 */
module Walkthrough {
  import opened Outcomes
  import opened Seqs
  import opened Text
  import opened Currency
  import opened Catalog
  import opened Lookup
  import opened Modification
  import opened Reconcile

  const SampleTable: seq<Row> := [
    Row(SynthesisLabel(One), 1000, 20000, 2000),
    Row(PurificationLabel(One), 500, 500, 50),
    Row("5`FAM-3`BHQ1", 300, 300, 30)
  ]

  const SampleLine: OrderLine := OrderLine("P1", 1.0, 20, " FAM", "BHQ1 ")

  /** The dual-label row mentions neither service word. */
  lemma LabelRowIsCandidate()
    ensures IsCandidate(SampleTable[2])
  {
    var labels := SampleTable[2].desc;
    assert labels == "5`FAM-3`BHQ1";
    assert SynthesisWord[0] == 's' && PurificationWord[0] == 'p';
    MissingFirstCharNotContained(labels, SynthesisWord);
    MissingFirstCharNotContained(labels, PurificationWord);
  }

  /** The only modification candidate of the sample table is its third row. */
  lemma SampleHasOneCandidate()
    ensures OnlyAt(SampleTable, IsCandidate, 2)
  {
    var t := SampleTable;
    ServiceRowsAreNotCandidates(t[0], One);
    ServiceRowsAreNotCandidates(t[1], One);
    LabelRowIsCandidate();
  }

  /** 20 monomers at 1,000 plus 300 for the labels plus 500 for HPLC: 20,800 and 2,080 tax, whatever the matcher. */
  lemma SampleLineIsPriced(matcher: Matcher)
    ensures LineCost(SampleTable, SampleLine, matcher) == Ok(Priced("P1", One, 1000, 20, 20000, 300, 500, 20800, 2080))
  {
    var t, line := SampleTable, SampleLine;
    assert ParseTier(line.amount) == Ok(One);
    assert OnlyRow(t, SynthesisLabel(One), 0);
    assert OnlyRow(t, PurificationLabel(One), 1);
    SampleHasOneCandidate();
    var mod5, mod3 := Strip(line.mod5), Strip(line.mod3);
    SingleCandidateSkipsMatcher(t, mod5, mod3, matcher, matcher, 2);
    var syn, mod, pur := CostSyn(t, One), CostMod(t, mod5, mod3, matcher), CostPur(t, One);
    assert syn == Ok(1000) && mod == Ok(300) && pur == Ok(500);
    assert LineCost(t, line, matcher) == Assemble(line, One, syn, mod, pur);
    assert Tax(20800) == 2080;
  }

  /** The sample invoice sums to 22,880 both ways, so the order reconciles. */
  lemma SampleOrderMatches(matcher: Matcher, orderId: string)
    ensures var r := Reconciled(SampleTable, [SampleLine], matcher, orderId);
      r.Ok? && r.value.expectedTotal == 22880 && r.value.actualTotal == 22880 && r.value.matches
  {
    SampleLineIsPriced(matcher);
    var p := Priced("P1", One, 1000, 20, 20000, 300, 500, 20800, 2080);
    assert LineCostOf(SampleTable, matcher)([SampleLine][0]) == Ok(p);
    TraverseFacts([SampleLine], LineCostOf(SampleTable, matcher));
    var ps := Costs(SampleTable, [SampleLine], matcher);
    assert ps.Ok?;
    assert ps.value == [p];
    assert ExpectedTotal([p]) == 22880;
  }

  /** Two modification rows and nothing else: both are candidates. */
  const PairTable: seq<Row> := [Row("A", 100, 100, 10), Row("B", 250, 250, 25)]

  lemma PairTableCandidates()
    ensures Candidates(PairTable) == PairTable
  {
    MissingFirstCharNotContained("A", SynthesisWord);
    MissingFirstCharNotContained("A", PurificationWord);
    MissingFirstCharNotContained("B", SynthesisWord);
    MissingFirstCharNotContained("B", PurificationWord);
    assert IsCandidate(PairTable[0]) && IsCandidate(PairTable[1]);
    assert Filter(PairTable, NotSynthesis) == PairTable;
  }

  /** Two candidates and a stub matcher that always answers "1": the second row's price, whatever the query. */
  lemma StubMatcherPicksSecond(mod5: string, mod3: string)
    ensures CostMod(PairTable, mod5, mod3, (names: seq<string>, query: string) => "1") == Ok(250)
  {
    var stub := (names: seq<string>, query: string) => "1";
    PairTableCandidates();
    assert Decimal(1) == "1";
    DecimalAnswerSelects(PairTable, mod5, mod3, stub, 1);
  }
}
