/**
 * compute_cost_mod: the price of the row for the 5'/3' modification pair.
 * The rows left after removing the synthesis and purification rows are the
 * candidates; with exactly one candidate its price is the answer, otherwise an
 * external matcher picks one by index.
 */
module Modification {
  import opened Outcomes
  import opened Seqs
  import opened Text
  import opened Currency
  import opened Catalog
  import opened Lookup

  /**
   * The external best-match service: given the candidate descriptions and the
   * query string it answers with some text, meant to be an index. Nothing is
   * assumed about what it answers.
   */
  type Matcher = (seq<string>, string) -> string

  predicate NotSynthesis(row: Row)
  {
    !Contains(row.desc, SynthesisWord)
  }

  predicate NotPurification(row: Row)
  {
    !Contains(row.desc, PurificationWord)
  }

  predicate IsCandidate(row: Row)
  {
    NotSynthesis(row) && NotPurification(row)
  }

  /** The two masks of compute_cost_mod, applied one after the other. */
  function Candidates(table: seq<Row>): (c: seq<Row>)
    ensures forall x :: x in c ==> x in table && IsCandidate(x)
    ensures forall i :: 0 <= i < |table| && IsCandidate(table[i]) ==> table[i] in c
    ensures IsSubsequence(c, table)
    ensures |c| == Count(table, IsCandidate)
  {
    FilterTwice(table, NotSynthesis, NotPurification, IsCandidate);
    FilterFacts(table, IsCandidate);
    Filter(Filter(table, NotSynthesis), NotPurification)
  }

  /** `df.품명.to_list()`. */
  function Descriptions(rows: seq<Row>): (r: seq<string>)
    ensures |r| == |rows| && forall i :: 0 <= i < |rows| ==> r[i] == rows[i].desc
  {
    if rows == [] then [] else [rows[0].desc] + Descriptions(rows[1..])
  }

  /** The string the matcher is asked to find: `{mod5}-{mod3}`. */
  function Query(mod5: string, mod3: string): string
  {
    mod5 + "-" + mod3
  }

  /** The position `df.iloc[k]` selects among `n` rows; negative `k` counts from the end. */
  function ILoc(n: nat, k: int): (r: Option<nat>)
    ensures r.Some? <==> -(n as int) <= k < n
    ensures r.Some? ==> r.value < n && (r.value - k) % n == 0
  {
    if 0 <= k < n then Some(k)
    else if -(n as int) <= k < 0 then Some(n + k)
    else None
  }

  /** `df.iloc[int(answer)]['단가']`: the price of the candidate the matcher's answer designates. */
  function Choose(cands: seq<Row>, answer: string): (r: Result<int>)
    ensures r.Ok? ==> exists j :: 0 <= j < |cands| && r.value == cands[j].unitPrice
    ensures cands == [] ==> r.Err?
    ensures r.Err? ==> r.error == MalformedMatchResponse || r.error == MatchIndexOutOfRange
    ensures ParseInt(answer).None? ==> r == Err(MalformedMatchResponse)
    ensures ParseInt(answer).Some? ==> var k := ParseInt(answer).value;
      && (0 <= k < |cands| ==> r == Ok(cands[k].unitPrice))
      && (-|cands| <= k < 0 ==> r == Ok(cands[|cands| + k].unitPrice))
      && (k < -|cands| || |cands| <= k ==> r == Err(MatchIndexOutOfRange))
  {
    match ParseInt(answer)
    case None => Err(MalformedMatchResponse)
    case Some(k) =>
      match ILoc(|cands|, k)
      case None => Err(MatchIndexOutOfRange)
      case Some(j) => Ok(cands[j].unitPrice)
  }

  /** compute_cost_mod, with the matcher as a parameter. */
  function CostMod(table: seq<Row>, mod5: string, mod3: string, matcher: Matcher): (r: Result<int>)
    ensures r.Ok? ==> exists row :: row in table && IsCandidate(row) && r.value == row.unitPrice
    ensures Count(table, IsCandidate) == 0 ==> r.Err?
    ensures r.Err? ==> r.error == MalformedMatchResponse || r.error == MatchIndexOutOfRange
  {
    var cands := Candidates(table);
    if |cands| == 1 then
      assert cands[0] in cands;
      Ok(cands[0].unitPrice)
    else
      var r := Choose(cands, matcher(Descriptions(cands), Query(mod5, mod3)));
      assert r.Ok? ==> exists j :: 0 <= j < |cands| && r.value == cands[j].unitPrice && cands[j] in cands;
      r
  }

  /** With a single candidate the matcher is never consulted: any two matchers agree, on that row's price. */
  lemma SingleCandidateSkipsMatcher(table: seq<Row>, mod5: string, mod3: string, m1: Matcher, m2: Matcher, i: int)
    requires OnlyAt(table, IsCandidate, i)
    ensures CostMod(table, mod5, mod3, m1) == CostMod(table, mod5, mod3, m2) == Ok(table[i].unitPrice)
  {
    CountOne(table, IsCandidate);
    var c := Candidates(table);
    assert table[i] in c;
    assert c[0] in table && IsCandidate(c[0]);
    var j :| 0 <= j < |table| && table[j] == c[0];
  }

  /** With other than one candidate, an integer answer `k` selects the candidate `iloc[k]`, or fails out of range. */
  lemma MatcherAnswerSelects(table: seq<Row>, mod5: string, mod3: string, matcher: Matcher, k: int)
    requires Count(table, IsCandidate) != 1
    requires ParseInt(matcher(Descriptions(Candidates(table)), Query(mod5, mod3))) == Some(k)
    ensures var c := Candidates(table);
      && (0 <= k < |c| ==> CostMod(table, mod5, mod3, matcher) == Ok(c[k].unitPrice))
      && (-|c| <= k < 0 ==> CostMod(table, mod5, mod3, matcher) == Ok(c[|c| + k].unitPrice))
      && (k < -|c| || |c| <= k ==> CostMod(table, mod5, mod3, matcher) == Err(MatchIndexOutOfRange))
  {
  }

  /** A matcher that answers with the decimal index `k` of a candidate gets that candidate's price. */
  lemma DecimalAnswerSelects(table: seq<Row>, mod5: string, mod3: string, matcher: Matcher, k: nat)
    requires Count(table, IsCandidate) != 1 && k < Count(table, IsCandidate)
    requires matcher(Descriptions(Candidates(table)), Query(mod5, mod3)) == Decimal(k)
    ensures CostMod(table, mod5, mod3, matcher) == Ok(Candidates(table)[k].unitPrice)
  {
    DecimalParses(k);
  }

  /** An answer that int() rejects fails the run. */
  lemma MalformedAnswerFails(table: seq<Row>, mod5: string, mod3: string, matcher: Matcher)
    requires Count(table, IsCandidate) != 1
    requires ParseInt(matcher(Descriptions(Candidates(table)), Query(mod5, mod3))) == None
    ensures CostMod(table, mod5, mod3, matcher) == Err(MalformedMatchResponse)
  {
  }

  /** The rows the exact lookups look for are never modification candidates. */
  lemma ServiceRowsAreNotCandidates(row: Row, t: Tier)
    requires row.desc == SynthesisLabel(t) || row.desc == PurificationLabel(t)
    ensures !IsCandidate(row)
  {
    if row.desc == SynthesisLabel(t) {
      ContainsInside("Modified primer ", SynthesisWord, " " + TierLabel(t) + " umoles");
      assert SynthesisLabel(t) == "Modified primer " + SynthesisWord + (" " + TierLabel(t) + " umoles");
    } else {
      ContainsInside("Modified " + TierLabel(t) + " umoles oligo ", PurificationWord, " HPLC");
    }
  }

  /** Filtering two tables that agree on descriptions and prices gives results that agree too. */
  lemma {:induction false} FilterSamePrices(t: seq<Row>, u: seq<Row>, p: Row -> bool)
    requires SamePrices(t, u)
    requires forall k :: 0 <= k < |t| ==> p(t[k]) == p(u[k])
    ensures SamePrices(Filter(t, p), Filter(u, p))
  {
    if t != [] {
      assert forall k :: 1 <= k < |t| ==> t[1..][k - 1] == t[k] && u[1..][k - 1] == u[k];
      FilterSamePrices(t[1..], u[1..], p);
      var ft, fu := Filter(t[1..], p), Filter(u[1..], p);
      if p(t[0]) {
        assert forall k :: 1 <= k <= |ft| ==> ([t[0]] + ft)[k] == ft[k - 1] && ([u[0]] + fu)[k] == fu[k - 1];
      }
    }
  }

  /** compute_cost_mod reads only descriptions and unit prices, never the amount columns. */
  lemma CostModSamePrices(t: seq<Row>, u: seq<Row>, mod5: string, mod3: string, matcher: Matcher)
    requires SamePrices(t, u)
    ensures CostMod(t, mod5, mod3, matcher) == CostMod(u, mod5, mod3, matcher)
  {
    FilterSamePrices(t, u, NotSynthesis);
    var ft, fu := Filter(t, NotSynthesis), Filter(u, NotSynthesis);
    FilterSamePrices(ft, fu, NotPurification);
    var ct, cu := Candidates(t), Candidates(u);
    assert SamePrices(ct, cu);
    var dt, du := Descriptions(ct), Descriptions(cu);
    assert forall k :: 0 <= k < |dt| ==> dt[k] == du[k];
    assert dt == du;
    if |ct| != 1 {
      ChooseSamePrices(ct, cu, matcher(dt, Query(mod5, mod3)));
    }
  }

  lemma ChooseSamePrices(c: seq<Row>, d: seq<Row>, answer: string)
    requires SamePrices(c, d)
    ensures Choose(c, answer) == Choose(d, answer)
  {
  }
}
