/**
 The at-the-money locator: the row whose call and put premiums are closest,
 chosen as `idxmin` chooses it, the first such row in table order.
 */
module Atm {
  import opened Wrappers
  import opened Chain

  function Abs(x: real): (r: real)
    ensures r >= 0.0 && (r == x || r == -x)
  {
    if x < 0.0 then -x else x
  }

  /** The derived `diff` column: |call premium - put premium|. */
  function Diff(row: Row): real {
    Abs(row.call - row.put)
  }

  /** Row `i` has the least `diff` of the chain and no earlier row ties it. */
  predicate IsFirstMinimal(chain: seq<Row>, i: int) {
    && 0 <= i < |chain|
    && (forall j :: 0 <= j < |chain| ==> Diff(chain[i]) <= Diff(chain[j]))
    && (forall j :: 0 <= j < i ==> Diff(chain[i]) < Diff(chain[j]))
  }

  /** First position of the least `diff` within rows `lo` onwards. */
  function ArgMinFrom(chain: seq<Row>, lo: nat): (k: nat)
    requires lo < |chain|
    ensures lo <= k < |chain|
    ensures forall j :: lo <= j < |chain| ==> Diff(chain[k]) <= Diff(chain[j])
    ensures forall j :: lo <= j < k ==> Diff(chain[k]) < Diff(chain[j])
    decreases |chain| - lo
  {
    if lo == |chain| - 1 then lo
    else
      var k := ArgMinFrom(chain, lo + 1);
      if Diff(chain[lo]) <= Diff(chain[k]) then lo else k
  }

  /** `df['diff'].idxmin()`: the position of the ATM row, absent for an
      empty chain (where `idxmin` raises). Exactly one position qualifies. */
  function AtmIndex(chain: seq<Row>): (r: Option<nat>)
    ensures r.None? <==> chain == []
    ensures forall i :: IsFirstMinimal(chain, i) <==> r == Some(i)
  {
    if chain == [] then None
    else
      Some(ArgMinFrom(chain, 0))
  }

  /** The strike of the ATM row. */
  function AtmStrike(chain: seq<Row>): (r: Option<int>)
    ensures r.None? <==> chain == []
    ensures r.Some? ==> exists i :: IsFirstMinimal(chain, i) && chain[i].strike == r.value
  {
    match AtmIndex(chain)
    case None => None
    case Some(i) => Some(chain[i].strike)
  }

  predicate StrikesAscending(chain: seq<Row>) {
    forall i, j :: 0 <= i < j < |chain| ==> chain[i].strike < chain[j].strike
  }

  /** On a table sorted by ascending strike, the table-order tie-break of
      `idxmin` picks the smallest strike among the rows of least `diff`. */
  lemma AtmSmallestStrikeWhenSorted(chain: seq<Row>, j: int)
    requires StrikesAscending(chain)
    requires 0 <= j < |chain|
    ensures AtmIndex(chain).Some?
    ensures var i := AtmIndex(chain).value;
      Diff(chain[j]) == Diff(chain[i]) ==> chain[i].strike <= chain[j].strike
  {
  }
}
