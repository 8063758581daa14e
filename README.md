# Oligo order price reconciliation, modelled in Dafny

`run.py` checks a vendor's invoice for an oligonucleotide order. It reads two
tables. The first is the customer's order spreadsheet: one row per oligo,
with its name, amount tier, length in monomers ("mer") and the 5' and 3'
modification labels. The second is the vendor's billing table: one row per
billed item, with its description, unit price, supplied amount and tax.

For every order line the script does four things:

- It looks up three prices: the synthesis unit price of the tier, the
  modification price and the HPLC purification price of the tier. The
  synthesis and purification prices are exact-description lookups. The
  modification row is chosen among the remaining rows by a language-model
  matcher.
- It computes the line price and a 10% tax.
- It adds both to an expected total.
- It records a statement entry under the oligo name.

Finally it compares the expected total with the invoiced total, meaning the
sum of the supplied and tax columns.

The Dafny model has one module per concern:

| module | file | what it models |
|---|---|---|
| `Outcomes` | outcomes.dfy | `Option`, `Result` and the run's error kinds (each `raise` of the pricing code, run.py:31, 58 and 126, the `ValueError` of `astype(int)` on a malformed cell, the malformed matcher answer and `iloc` out of range); the raises of the file search at run.py:65-100 are not modelled |
| `Seqs` | seqs.dfy | boolean masks (`df[mask]`), counting, and `Traverse`, which applies a fallible step to each element in order and stops at the first failure |
| `Text` | text.dfy | `str.strip()` and substring containment (`str.contains` with a literal word) |
| `Currency` | currency.dfy | `int(s.replace(',', ''))` on currency cells and the `'{:,}'` grouped rendering, with the round trip between them |
| `Catalog` | catalog.dfy | billing-table rows, dropping the two footer rows, parsing the three money columns, and the invoiced total |
| `Lookup` | lookup.dfy | the amount tier, `compute_cost_syn` and `compute_cost_pur` |
| `Modification` | modification.dfy | `compute_cost_mod`: the candidate rows, the single-candidate short cut, and the matcher's answer read through `int()` and `iloc` |
| `Reconcile` | reconcile.dfy | one order line's figures, the order loop as a method with its invariants, the statement dictionary, the totals and the verdict |
| `Walkthrough` | walkthrough.dfy | two worked examples: an order whose totals agree, and two candidates resolved by a stub matcher |

The language-model call is a parameter. `Matcher` is any function from the
candidate descriptions and the query string to the response text. A run is
therefore a function of the extracted tables, the order lines, the matcher
and the order identifier. `Reconcile.Run` is that function. The method
`Reconcile.Reconcile` computes the same result with the script's loop, a
running total and a dictionary. Its `ensures` clause states that equality.

Points of `run.py` that are easy to misread:

- The matcher's query is `mod5 + "-" + mod3`, with no 5`/3` prefixes
  (run.py:42).
- Tax is `int(price / 10)`, which truncates toward zero (run.py:134). For a
  negative price this differs from floor division.
- A lookup that finds no row fails exactly like one that finds several rows
  (run.py:30, 57), even though the message speaks only of "multiple rows".
- Money cells are not checked to be non-negative: `int()` accepts a sign, so
  negative amounts parse (run.py:109-111).
- Changing one billing row's supplied or tax amount so that the row's
  supplied plus tax sum changes turns a matching verdict into a mismatch
  (`AmountChangeFlipsVerdict`). A change that keeps that sum, or a change of
  a unit price, need not: the invoiced total never reads unit prices, and a
  row nobody looks up affects nothing.

## Model

| member | source | states |
|---|---|---|
| `Catalog.DropFooter` | run.py:107 | the result is the table without its last two rows: a prefix of length `|raw| - 2`, or empty for two rows or fewer |
| `Catalog.ParseRow` | run.py:109-111 | a row is read exactly when all three money cells parse; the parsed columns are `int(cell.replace(',', ''))` of the cells, and the description is kept |
| `Catalog.Normalize` | run.py:107-111 | the table succeeds exactly when every non-footer row parses; row `i` is parsed from raw row `i`; otherwise the error is `MalformedCell` |
| `Catalog.ActualTotalUpdate` | run.py:113 | replacing one row changes the invoiced total by the change in that row's supplied plus tax amounts |
| `Currency.RemoveCommas` | run.py:109 | `str.replace(',', '')` keeps the characters that are not commas, in order and with their repeats, and drops every comma |
| `Currency.GroupedWithoutCommas` | run.py:139-141 | deleting the separators from the `'{:,}'` rendering of `n` leaves `str(n)` |
| `Currency.DecimalParses` | run.py:109 | `int()` reads back `str(n)` as `n` |
| `Currency.CellRoundTrip` | run.py:139-141 | for every integer `n`, including negatives, a cell holding `'{:,}'.format(n)` is read back as `n` by the table's cell parsing |
| `Text.StripShape` | run.py:128-129 | `strip()` removes a run of whitespace at each end and nothing else, and leaves no whitespace at either end |
| `Lookup.ParseTier` | run.py:120-126 | the amount is accepted exactly when it is 1 or 0.2, giving that tier; any other amount is `InvalidAmount` |
| `Lookup.UniquePrice` | run.py:29-30 | a price is found exactly when one row has the wanted description, and then it is that row's unit price |
| `Lookup.CostSyn` | run.py:28-32 | the synthesis price is the unit price of the only row labelled `Modified primer synthesis {tier} umoles`; zero or several such rows give `SynthesisRowCount` |
| `Lookup.CostPur` | run.py:55-59 | the purification price is the unit price of the only row labelled `Modified {tier} umoles oligo purification HPLC`; zero or several give `PurificationRowCount` |
| `Lookup.MissingRowFails` | run.py:29-31 | with no row carrying either label, the synthesis lookup fails with `SynthesisRowCount` and the purification lookup with `PurificationRowCount` |
| `Lookup.DuplicateRowFails` | run.py:29-31 | two rows carrying the synthesis label make the synthesis lookup fail, and two carrying the purification label make the purification lookup fail, whatever their prices |
| `Lookup.UniquePriceSamePrices` | run.py:29 | an exact lookup depends only on descriptions and unit prices, never on the amount columns |
| `Seqs.FilterTwice` | run.py:38-39 | the two successive masks keep the same rows as one mask requiring both conditions |
| `Modification.Candidates` | run.py:38-39 | the candidates are exactly the rows containing neither "synthesis" nor "purification", as a subsequence of the table in original order |
| `Modification.ServiceRowsAreNotCandidates` | run.py:38-39 | a synthesis or purification row of either tier is never a modification candidate |
| `Modification.Descriptions` | run.py:42 | the matcher is shown each candidate's description, in candidate order |
| `Modification.ILoc` | run.py:53 | `iloc[k]` on `n` rows is defined exactly for `-n <= k < n`, and picks the row `k` positions from the start, or `-k` from the end |
| `Modification.Choose` | run.py:48-53 | an answer `int()` reads as `k` selects candidate `k`, or candidate `|c| + k` for `-|c| <= k < 0`; an index outside that range is `MatchIndexOutOfRange` and an answer `int()` rejects is `MalformedMatchResponse`; a chosen price is always a candidate's |
| `Modification.CostMod` | run.py:34-53 | a resolved modification price is the unit price of some candidate row; with no candidates it fails |
| `Modification.SingleCandidateSkipsMatcher` | run.py:40-41 | with exactly one candidate, every matcher gives that row's price, so the matcher is not consulted |
| `Modification.MatcherAnswerSelects` | run.py:42-53 | with other than one candidate, an integer answer `k` selects candidate `k`, or candidate `|c| + k` for a negative `k`, and fails outside `-|c| <= k < |c|` |
| `Modification.DecimalAnswerSelects` | run.py:53 | a matcher answering the decimal index of a candidate gets that candidate's price |
| `Modification.MalformedAnswerFails` | run.py:53 | an answer that `int()` rejects fails the line |
| `Modification.CostModSamePrices` | run.py:34-53 | the modification price depends only on descriptions and unit prices |
| `Reconcile.Tax` | run.py:134 | the tax is the price's tenth truncated toward zero: `10*t <= price < 10*t + 10` for a non-negative price, and the mirror bound for a negative one |
| `Reconcile.LinePriceDecomposes` | run.py:127-134 | a priced line carries its name and length, its three prices come from the three lookups, and `price = syn*mer + mod + pur`; the tax is `Tax(price)`, a tenth truncated toward zero, bounded on both sides for either sign of the price |
| `Reconcile.LineCostErrors` | run.py:120-132 | a line fails with the first failing step, in the order amount, synthesis, modification, purification |
| `Reconcile.InvalidAmountFailsBeforeLookups` | run.py:121-126 | an amount other than 1 and 0.2 fails with `InvalidAmount`, whatever the table and the matcher, so no lookup decides the outcome |
| `Reconcile.PriceLinearInMer` | run.py:133 | `d` more monomers add exactly `d` times the synthesis unit price to the line price |
| `Reconcile.EntryAmountsReadBack` | run.py:139-141 | the statement's price and tax strings are read back by the table's cell parsing as the computed figures |
| `Reconcile.KeyOrderFacts` | run.py:136 | the statement's row order lists every oligo name exactly once |
| `Reconcile.AppendLine` | run.py:135-136 | one more line adds its price plus tax to the total, overwrites its name's record, and appends the name only if it is new |
| `Reconcile.CostsKeepNames` | run.py:118-132 | the figures of line `i` are that line's pricing and carry its oligo name |
| `Reconcile.StatementIsLastWriteWins` | run.py:136-148 | `data` has exactly the order's oligo names as keys, and under each the record of the last line with that name |
| `Reconcile.FirstFailingLineAborts` | run.py:118-132 | the run stops at the first line that cannot be priced, with that line's error |
| `Reconcile.RepeatedLineCountsTwice` | run.py:135-136 | ordering a line twice more adds its price and tax twice to the expected total, while `data` keeps one record under its name; this relies on the matcher being a function (see Left out), whereas the script sends a fresh request per line, which may be answered differently |
| `Reconcile.LineCostSamePrices` | run.py:130-132 | a line's pricing depends only on the billing table's descriptions and unit prices |
| `Reconcile.AmountChangeFlipsVerdict` | run.py:113-153 | changing one row's supplied or tax amount leaves the statement and expected total alone, moves the invoiced total by the change, and turns a match into a mismatch when the sum changes |
| `Reconcile.Reconciled` | run.py:113-153 | the run succeeds exactly when every line is priced, because a mismatch does not abort; the invoiced total is the supplied plus tax sums, and the verdict is true exactly when the totals are equal |
| `Reconcile.Tally` | run.py:114-148 | the order loop, proved by its invariants to price the lines in order, stop at the first failure, sum price plus tax, and fill `data` and its key order |
| `Reconcile.PriceOrders` | run.py:113-153 | the loop followed by the comparison returns exactly `Reconciled` |
| `Reconcile.Reconcile` | run.py:107-153 | normalising the table, then reconciling, returns exactly `Run` |
| `Walkthrough.SampleLineIsPriced` | run.py:118-134 | a 20-mer at tier 1 with one modification row costs 20,800 plus 2,080 tax, whatever the matcher |
| `Walkthrough.SampleOrderMatches` | run.py:113-150 | that order against an invoice summing to 22,880 reconciles |
| `Walkthrough.StubMatcherPicksSecond` | run.py:40-53 | with two candidates and a matcher that always answers "1", the second row's price is chosen, whatever the query |
| `Seqs.Filter` | run.py:38-39 | definition of a boolean mask `df[mask]`; its properties are stated by `Seqs.FilterFacts` |
| `Seqs.FilterFacts` | run.py:38-39 | a mask keeps exactly the elements satisfying the condition, as a subsequence in original order, as many as satisfy it |
| `Seqs.Traverse` | run.py:118-132 | definition of applying a raising step to each element in order; its properties are stated by `Seqs.TraverseFacts` |
| `Seqs.TraverseFacts` | run.py:118-132 | the traversal succeeds exactly when every step succeeds, then holds the results in order; otherwise it carries the error of the first failing step |
| `Text.Strip` | run.py:128-129 | definition of `str.strip()`; its meaning is stated by `Text.StripShape` |
| `Text.Contains` | run.py:38-39 | definition of `str.contains` with a literal word: the word occurs as a contiguous substring |
| `Currency.ParseInt` | run.py:109-111 | definition of `int()` on text: optional surrounding whitespace, an optional sign, one or more digits; `Currency.DecimalParses` and `Currency.CellRoundTrip` state what it reads |
| `Currency.ParseCell` | run.py:109-111 | definition of `int(cell.replace(',', ''))`; it inverts `Currency.Grouped` (`Currency.CellRoundTrip`) |
| `Currency.Decimal` | run.py:139-141 | definition of `str(n)` for a natural number; `Currency.DecimalParses` states that `int()` reads it back |
| `Currency.GroupedNat` | run.py:139-141 | definition of `'{:,}'` for a natural number; `Currency.GroupedWithoutCommas` relates it to `str(n)` |
| `Currency.Grouped` | run.py:139-141 | definition of `'{:,}'` for any integer, a minus sign before the grouped magnitude; `Currency.CellRoundTrip` states its inverse |
| `Catalog.ActualTotal` | run.py:113 | definition of `actual_total`: the supplied column's sum plus the tax column's sum; `Catalog.ActualTotalUpdate` states how it moves |
| `Lookup.TierLabel` | run.py:121-124 | definition of the amount as the f-strings render it: `1` or `0.2` |
| `Lookup.SynthesisLabel` | run.py:29 | definition of the synthesis row's description for a tier |
| `Lookup.PurificationLabel` | run.py:56 | definition of the purification row's description for a tier |
| `Modification.Query` | run.py:42 | definition of the query string `{mod5}-{mod3}` |
| `Reconcile.LineCost` | run.py:120-134 | definition of one loop iteration up to its figures; its properties are stated by `Reconcile.LinePriceDecomposes` and `Reconcile.LineCostErrors` |
| `Reconcile.Assemble` | run.py:130-134 | definition of combining the three lookups into price and tax; `Reconcile.AssemblePrice` states the price formula |
| `Reconcile.ExpectedTotal` | run.py:135 | definition of `expected_total`: price plus tax summed over the lines; `Reconcile.AppendLine` states its step |
| `Reconcile.EntryOf` | run.py:137-147 | definition of the statement record; `Reconcile.EntryAmountsReadBack` states that its price and tax strings read back |
| `Reconcile.LastWins` | run.py:136 | definition of filling a dictionary line by line; `Reconcile.StatementIsLastWriteWins` states which record survives under each name |
| `Reconcile.Statement` | run.py:136-148 | definition of `data`; its keys and values are stated by `Reconcile.StatementIsLastWriteWins` |
| `Reconcile.KeyOrder` | run.py:136 | definition of the dictionary's insertion order; `Reconcile.KeyOrderFacts` states that it lists every name once |
| `Reconcile.Run` | run.py:107-153 | definition of a whole run on the extracted tables; `Reconcile.Reconcile` computes it with the script's loop |

## Left out

- Argument parsing, the API key, the search of the order directory, and reading the Excel and PDF files (run.py:61-105) are left out. The model starts from the extracted rows.
- The column drop at run.py:106 and the rename at 108 are left out. `RawRow` holds only the description and the three money cells.
- The language-model request (run.py:42-48) is reduced to the `Matcher` parameter. The instruction text and few-shot examples are not modelled. The matcher is a function of the candidate descriptions and the query, so it is deterministic within a run.
- Debug printing (run.py:49-52) and the console messages (run.py:150-153) are left out. The verdict is the `matches` field.
- Writing the statement spreadsheet (run.py:155-157) is left out. `data` and its key order are modelled, but not the file.
- Pandas cells that are NaN, or that are numeric instead of text, are left out. Every cell is a string, and every order field has the type it has in a well-formed sheet.
- `Currency.ParseInt`: accepts only ASCII digits and ASCII whitespace. Python's `int()` also accepts underscores between digits, other Unicode digits and other Unicode whitespace.
- `Text.Strip`: removes only the six ASCII whitespace characters. Python's `str.strip()` also removes `\x1c`-`\x1f` and Unicode spaces.
- `Reconcile.Tax`: computes `int(price / 10)` exactly on integers. The source divides in floating point, which can round differently for prices beyond 2^53.
- Order fields: the amount is an exact rational compared with 1 and 0.2, and `mer` is an integer. A float `mer`, which would make the price a float and change its rendering to `1,234.0`, is not modelled.
- `str.contains` interprets its argument as a regular expression. The two words it is given have no special characters, so it is modelled as literal containment.
- Integer width: `astype(int)` (run.py:109-111) yields 64-bit integers and raises `OverflowError` for a cell beyond 2^63-1, and the column sums (run.py:113) and `cost_syn * mer` (run.py:133) are 64-bit operations that wrap silently. The model uses unbounded integers, so it has neither the overflow error nor the wrap-around.
- A failing matcher request: the network call can raise, and so can a reply without `choices` or `content` (run.py:43-48); either aborts the run. `Matcher` is total and always answers with some text.
