/**
 The iron condor built around the ATM strike: the four leg strikes at one
 and two gaps either side, their premiums from the chain, and the credit,
 maximum loss and breakeven range the calculator reports.
 */
module Condor {
  import opened Wrappers
  import opened Chain
  import opened Atm

  /** The gap widget's bounds: at least 50 and at most 500. */
  predicate WidgetGap(gap: int) {
    50 <= gap <= 500
  }

  /** The four leg strikes. */
  datatype Legs = Legs(sellPut: int, buyPut: int, sellCall: int, buyCall: int)

  /** Leg builder: short strikes one gap from the ATM strike, long strikes two. */
  function BuildLegs(atm: int, gap: int): (l: Legs)
    ensures atm - l.sellPut == gap && l.sellPut - l.buyPut == gap
    ensures l.sellCall - atm == gap && l.buyCall - l.sellCall == gap
    ensures l.sellPut + l.sellCall == 2 * atm && l.buyPut + l.buyCall == 2 * atm
    ensures gap > 0 ==> l.buyPut < l.sellPut < atm < l.sellCall < l.buyCall
  {
    Legs(atm - gap, atm - 2 * gap, atm + gap, atm + 2 * gap)
  }

  /** Every gap the widget allows orders the legs strictly. */
  lemma WidgetGapOrdersLegs(atm: int, gap: int)
    requires WidgetGap(gap)
    ensures var l := BuildLegs(atm, gap); l.buyPut < l.sellPut < atm < l.sellCall < l.buyCall
  {
  }

  /** The four looked-up premiums. */
  datatype Quotes = Quotes(ceSell: real, ceBuy: real, peSell: real, peBuy: real)

  /** What the calculator reports for a strategy it could build. */
  datatype Strategy = Strategy(
    atm: int, gap: int, legs: Legs, quotes: Quotes,
    credit: real, maxLoss: real, breakevenLow: real, breakevenHigh: real)

  /** The two outcomes that stop the calculation: an error raised while
      processing the file (an empty chain), and a leg strike missing. */
  datatype Failure = ProcessingError | StrikesNotFound

  /** All four leg strikes have a row in the chain. */
  predicate LegsListed(chain: seq<Row>, l: Legs) {
    Listed(chain, l.sellCall) && Listed(chain, l.buyCall) && Listed(chain, l.sellPut) && Listed(chain, l.buyPut)
  }

  /** `p` is the `col` premium of the first row with strike `k`. */
  predicate Quoted(chain: seq<Row>, k: int, col: Column, p: real) {
    exists i :: 0 <= i < |chain| && FirstWithStrike(chain, k, i) && Premium(chain[i], col) == p
  }

  /** Premium on each leg: call premiums on the call legs, put on the put legs. */
  predicate QuotesFromChain(chain: seq<Row>, l: Legs, q: Quotes) {
    && Quoted(chain, l.sellCall, CallLtp, q.ceSell)
    && Quoted(chain, l.buyCall, CallLtp, q.ceBuy)
    && Quoted(chain, l.sellPut, PutLtp, q.peSell)
    && Quoted(chain, l.buyPut, PutLtp, q.peBuy)
  }

  /** The relations among the reported figures that hold for every strategy
      the calculator builds. */
  predicate Consistent(s: Strategy) {
    && s.legs == BuildLegs(s.atm, s.gap)
    && s.credit == s.quotes.ceSell + s.quotes.peSell - s.quotes.ceBuy - s.quotes.peBuy
    && s.maxLoss + s.credit == s.gap as real
    && s.breakevenLow == s.legs.sellPut as real - s.credit
    && s.breakevenHigh == s.legs.sellCall as real + s.credit
  }

  /** Lines 30 to 62 for a given ATM strike: build the legs, look up the
      four premiums and, only when none is absent, compute the figures. */
  function Price(chain: seq<Row>, atm: int, gap: int): (r: Result<Strategy, Failure>)
    ensures r.Err? <==> !LegsListed(chain, BuildLegs(atm, gap))
    ensures r.Err? ==> r.error == StrikesNotFound
    ensures r.Ok? ==> r.value.atm == atm && r.value.gap == gap && Consistent(r.value)
    ensures r.Ok? ==> QuotesFromChain(chain, r.value.legs, r.value.quotes)
    ensures r.Ok? ==> r.value.breakevenHigh - r.value.breakevenLow == 2.0 * gap as real + 2.0 * r.value.credit
  {
    var l := BuildLegs(atm, gap);
    var ceSell := GetLtp(chain, l.sellCall, CallLtp);
    var ceBuy := GetLtp(chain, l.buyCall, CallLtp);
    var peSell := GetLtp(chain, l.sellPut, PutLtp);
    var peBuy := GetLtp(chain, l.buyPut, PutLtp);
    if ceSell.None? || ceBuy.None? || peSell.None? || peBuy.None? then
      Err(StrikesNotFound)
    else
      var q := Quotes(ceSell.value, ceBuy.value, peSell.value, peBuy.value);
      var credit := q.ceSell + q.peSell - q.ceBuy - q.peBuy;
      Ok(Strategy(atm, gap, l, q, credit, gap as real - credit,
                  l.sellPut as real - credit, l.sellCall as real + credit))
  }

  /** The whole calculation on an uploaded table: clean it, locate the ATM
      row, then price the condor at the chosen gap. */
  function Evaluate(raw: seq<RawRow>, gap: int): (r: Result<Strategy, Failure>)
    ensures r == Err(ProcessingError) <==> Clean(raw) == []
    ensures r == Err(StrikesNotFound) <==>
      exists i :: IsFirstMinimal(Clean(raw), i) && !LegsListed(Clean(raw), BuildLegs(Clean(raw)[i].strike, gap))
    ensures r.Ok? ==> exists i :: IsFirstMinimal(Clean(raw), i) && r.value.atm == Clean(raw)[i].strike
    ensures r.Ok? ==> r.value.gap == gap && Consistent(r.value)
    ensures r.Ok? ==> QuotesFromChain(Clean(raw), r.value.legs, r.value.quotes)
  {
    var chain := Clean(raw);
    match AtmStrike(chain)
    case None => Err(ProcessingError)
    case Some(atm) => Price(chain, atm, gap)
  }

  /** A five-row table whose ATM row is 24900 (calls and puts 5 apart). */
  const ExampleTable: seq<RawRow> := [
    RawRow(Some(24700), Some(200.0), Some(40.0), []),
    RawRow(Some(24800), Some(150.0), Some(60.0), []),
    RawRow(Some(24900), Some(100.0), Some(95.0), []),
    RawRow(Some(25000), Some(60.0), Some(140.0), []),
    RawRow(Some(25100), Some(30.0), Some(200.0), [])]

  const ExampleChain: seq<Row> := [
    Row(24700, 200.0, 40.0), Row(24800, 150.0, 60.0), Row(24900, 100.0, 95.0),
    Row(25000, 60.0, 140.0), Row(25100, 30.0, 200.0)]

  lemma ExampleCleans()
    ensures Clean(ExampleTable) == ExampleChain
  {
  }

  lemma ExampleLocates()
    ensures AtmStrike(ExampleChain) == Some(24900)
  {
  }

  lemma ExampleLookups()
    ensures GetLtp(ExampleChain, 25000, CallLtp) == Some(60.0)
    ensures GetLtp(ExampleChain, 25100, CallLtp) == Some(30.0)
    ensures GetLtp(ExampleChain, 24800, PutLtp) == Some(60.0)
    ensures GetLtp(ExampleChain, 24700, PutLtp) == Some(40.0)
    ensures GetLtp(ExampleChain, 25300, CallLtp) == None
  {
    var chain := ExampleChain;
    GetLtpIsFirstMatch(chain, 25000, CallLtp, 3);
    GetLtpIsFirstMatch(chain, 25100, CallLtp, 4);
    GetLtpIsFirstMatch(chain, 24800, PutLtp, 1);
    GetLtpIsFirstMatch(chain, 24700, PutLtp, 0);
    assert !Listed(chain, 25300);
  }

  /** On the example table a gap of 100 finds all four legs and reports a
      credit of 50, while a gap of 200 needs strikes 24500 and 25300, which the
      table lacks. */
  lemma WorkedExample()
    ensures Evaluate(ExampleTable, 100) == Ok(Strategy(24900, 100, Legs(24800, 24700, 25000, 25100),
      Quotes(60.0, 30.0, 60.0, 40.0), 50.0, 50.0, 24750.0, 25050.0))
    ensures Evaluate(ExampleTable, 200) == Err(StrikesNotFound)
  {
    var chain := ExampleChain;
    ExampleCleans();
    ExampleLocates();
    ExampleLookups();
    assert Evaluate(ExampleTable, 100) == Price(chain, 24900, 100);
    assert Evaluate(ExampleTable, 200) == Price(chain, 24900, 200);
  }

  /** An empty table (or one whose every row has a missing cell) is
      reported as a processing error, never as a strategy. */
  lemma NoCompleteRowFails(raw: seq<RawRow>, gap: int)
    requires forall i :: 0 <= i < |raw| ==> !Complete(raw[i])
    ensures Evaluate(raw, gap) == Err(ProcessingError)
  {
    CleanEmptyWhenNoneComplete(raw);
  }
}
