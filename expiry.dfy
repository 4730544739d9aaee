/**
 What the reported "Max Loss" and "Breakeven Range" mean: the profit or loss
 at expiry of the condor (short the inner put and call, long the outer put
 and call, opened for the net credit), as a function of the settlement price.
 The calculator does not compute this curve; it is the reference that
 gives its two figures their meaning.
 */
module Expiry {
  import opened Condor

  function Pos(x: real): real {
    if x < 0.0 then 0.0 else x
  }

  /** Profit or loss per unit when the underlying settles at `s`. */
  function PnlAt(st: Strategy, s: real): real {
    var l := st.legs;
    st.credit
      - (Pos(l.sellPut as real - s) - Pos(l.buyPut as real - s))
      - (Pos(s - l.sellCall as real) - Pos(s - l.buyCall as real))
  }

  /** For a positive gap, no settlement loses more than `maxLoss` or gains
      more than the credit, and beyond either long strike the loss is
      exactly `maxLoss`. */
  lemma MaxLossIsWorstCase(st: Strategy, s: real)
    requires Consistent(st) && st.gap > 0
    ensures -st.maxLoss <= PnlAt(st, s) <= st.credit
    ensures s <= st.legs.buyPut as real || s >= st.legs.buyCall as real ==> PnlAt(st, s) == -st.maxLoss
    ensures st.legs.sellPut as real <= s <= st.legs.sellCall as real ==> PnlAt(st, s) == st.credit
  {
  }

  /** When the legs are opened for a debit (credit at most zero), no
      settlement makes money, so the reported range bounds no profit zone. */
  lemma DebitNeverProfits(st: Strategy, s: real)
    requires Consistent(st) && st.gap > 0 && st.credit <= 0.0
    ensures PnlAt(st, s) <= 0.0
  {
    MaxLossIsWorstCase(st, s);
  }

  /** When the credit exceeds the gap, every settlement makes money,
      including both reported breakevens. */
  lemma CreditAboveGapAlwaysProfits(st: Strategy, s: real)
    requires Consistent(st) && st.gap > 0 && st.credit > st.gap as real
    ensures PnlAt(st, s) > 0.0
    ensures PnlAt(st, st.breakevenLow) > 0.0 && PnlAt(st, st.breakevenHigh) > 0.0
  {
    MaxLossIsWorstCase(st, s);
    MaxLossIsWorstCase(st, st.breakevenLow);
    MaxLossIsWorstCase(st, st.breakevenHigh);
  }

  /** When the credit is positive and at most the gap, the position makes
      money exactly strictly inside the breakeven range, and nothing at its
      two ends. */
  lemma BreakevenRange(st: Strategy, s: real)
    requires Consistent(st) && 0.0 < st.credit <= st.gap as real
    ensures PnlAt(st, st.breakevenLow) == 0.0 && PnlAt(st, st.breakevenHigh) == 0.0
    ensures PnlAt(st, s) > 0.0 <==> st.breakevenLow < s < st.breakevenHigh
  {
  }
}
