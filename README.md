# Iron condor calculator: the strategy engine

This project models the calculation at the heart of the baseline NIFTY
iron-condor builder (`iron_condor_app.py`). Given an option chain — rows of
strike, call last-traded price (`Call LTP`) and put last-traded price
(`Put LTP`) — and a strike gap, the calculator:

1. cleans the table, keeping only rows with no missing cell (module `Chain`);
2. locates the at-the-money (ATM) row, the one whose call and put premiums
   are closest, breaking ties by taking the first such row in table order,
   as pandas' `idxmin` does (module `Atm`);
3. builds the four legs: sell put at ATM − gap, buy put at ATM − 2·gap,
   sell call at ATM + gap and buy call at ATM + 2·gap (module `Condor`);
4. looks up each leg's premium with `get_ltp`, the premium of the first row
   whose strike is exactly the leg strike, or absent (module `Chain`);
5. reports "strikes not found" when any premium is absent, and otherwise the
   net credit, the maximum loss and the breakeven range (module `Condor`).

Strikes are integers and premiums are exact `real`s, so `max_loss + credit
= gap` holds exactly. Module `Expiry` gives the profit or loss at expiry of
the resulting position as a reference. It proves that, for a positive gap,
the reported maximum loss is the worst case. It proves that the breakeven
range is exactly where the position makes money when 0 < credit ≤ gap.
Outside that band the printed range bounds no profit zone: with a debit
(credit ≤ 0) no settlement makes money, and with a credit above the gap
every settlement does.

Notes on what the code does:

- Line 24 (`df.dropna()`) drops a row with a missing cell in ANY column of
  the file, not only in the three required ones. `RawRow.others` records the
  presence of the further cells, and `Chain.Complete` requires all of them.
- Ties in `|call − put|` go to the first row in table order (`idxmin`),
  which is the smallest tying strike only when the table is sorted by
  strike (`Atm.AtmSmallestStrikeWhenSorted`).
- An empty cleaned chain makes `idxmin` raise. The generic handler at
  lines 64–65 turns this into an error message; the model returns
  `Failure.ProcessingError`, distinct from `Failure.StrikesNotFound`.

## Model

| member | source | states |
|---|---|---|
| `Chain.Clean` | iron_condor_app.py:20-24 | cleaning never adds rows |
| `Chain.CleanKeepsExactlyComplete` | iron_condor_app.py:20-24 | every cleaned row is the value of a complete table row, and every complete table row is kept |
| `Chain.CleanAppend` | iron_condor_app.py:20-24 | cleaning distributes over concatenation, so kept rows stay in table order |
| `Chain.CleanLength` | iron_condor_app.py:20-24 | the cleaned chain has exactly as many rows as the table has complete rows |
| `Chain.CleanEmptyWhenNoneComplete` | iron_condor_app.py:24 | a table without a complete row cleans to the empty chain |
| `Chain.FindStrike` | iron_condor_app.py:36-37 | absent iff no row has the strike; otherwise the first row with exactly that strike |
| `Chain.GetLtp` | iron_condor_app.py:35-37 | absent iff no row has the strike; otherwise the requested premium of the first row with exactly that strike |
| `Chain.GetLtpIsFirstMatch` | iron_condor_app.py:36-37 | the first row with the strike decides the lookup, whatever later rows with that strike hold |
| `Atm.ArgMinFrom` | iron_condor_app.py:26-27 | a position whose diff is least among the rows from `lo` on, and strictly below every earlier one of them |
| `Atm.AtmIndex` | iron_condor_app.py:26-27 | absent iff the chain is empty; otherwise the unique position of least `abs(call − put)` with no earlier tie |
| `Atm.AtmStrike` | iron_condor_app.py:26-28 | absent iff the chain is empty; otherwise the strike of the first row of least `abs(call − put)` |
| `Atm.AtmSmallestStrikeWhenSorted` | iron_condor_app.py:27 | on a chain sorted by strike, the ATM row has the smallest strike among rows tying its diff |
| `Condor.BuildLegs` | iron_condor_app.py:30-33 | adjacent legs are exactly one gap apart, each pair of legs is symmetric about the ATM strike, and for a positive gap buy put < sell put < ATM < sell call < buy call |
| `Condor.WidgetGapOrdersLegs` | iron_condor_app.py:9 | every gap within the widget's bounds (50 to 500) orders the legs strictly |
| `Condor.Price` | iron_condor_app.py:30-48 | "strikes not found" iff some leg strike has no row; otherwise each premium is the first-match premium of its leg, `max_loss + credit = gap`, credit is the sold premiums minus the bought ones, and the breakeven range is 2·gap + 2·credit wide |
| `Condor.Evaluate` | iron_condor_app.py:20-48 | processing error iff the cleaned chain is empty; "strikes not found" iff the legs around the first least-diff strike are not all listed; otherwise a consistent strategy centred on that strike with first-match premiums |
| `Condor.NoCompleteRowFails` | iron_condor_app.py:24-27 | a table without a complete row always ends in the processing error (`idxmin` on an empty chain raises, and lines 64-65 report it) |
| `Condor.WorkedExample` | iron_condor_app.py:20-48 | on a five-row table the ATM strike is 24900, gap 100 gives credit 50, max loss 50 and breakevens 24750 and 25050, and gap 200 reports strikes not found |
| `Expiry.MaxLossIsWorstCase` | iron_condor_app.py:48 | for a positive gap the position never loses more than `max_loss`, loses exactly that beyond the long strikes, and keeps the whole credit between the short strikes |
| `Expiry.DebitNeverProfits` | iron_condor_app.py:62 | with a debit (credit ≤ 0) and a positive gap, no settlement makes money, so the printed range bounds no profit zone |
| `Expiry.CreditAboveGapAlwaysProfits` | iron_condor_app.py:62 | with a credit above a positive gap, every settlement makes money, both printed breakevens included |
| `Expiry.BreakevenRange` | iron_condor_app.py:62 | for 0 < credit ≤ gap the position gains exactly strictly between the two breakevens and is flat at both |

## Left out

- The Streamlit page: configuration, title, uploader, number widget, the
  legs table and the success, warning, error and info messages
  (lines 4–9, 45, 50–62, 67) are presentation only; the model returns the
  figures they display.
- CSV reading, header stripping and `pd.to_numeric(errors='coerce')`
  (lines 13–14, 21–23) belong to pandas. The input is rows whose cells are
  already numeric or missing (`RawRow`).
- Floating point: premiums are exact reals, so `.2f` display rounding and
  binary rounding errors are not modelled.
- The `int()` truncation of the ATM strike at line 28: strikes are integers
  in the model, so truncation is the identity.
- The catch-all handler at lines 64–65 is modelled only for the error the
  core can raise, `idxmin` on an empty chain; other exceptions come from the
  CSV reader and column access, which are not part of this model.
- Chain.Clean: its own contract only bounds the length; what it keeps is
  stated by the lemmas `CleanKeepsExactlyComplete`, `CleanAppend` and
  `CleanLength` beside it.
- Gap auto-detection, the multi-gap optimiser, payoff-curve sampling, the
  implied-volatility label, the open-interest table and the expiry date from
  the file name are not in this program version and are not modelled;
  module `Expiry` is a reference for the meaning of the reported figures,
  not a model of a payoff chart.
