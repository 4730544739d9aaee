/**
 The option chain as the calculator sees it: the rows of the uploaded table
 once the three required columns are numeric, the cleaning filter that keeps
 only complete rows, and the exact-strike premium lookup `get_ltp`.
 */
module Chain {
  import opened Wrappers

  /** One row of the table after numeric coercion. A `None` cell was empty
      or not numeric. `others` has one flag per further column of the file,
      true when that cell holds a value. */
  datatype RawRow = RawRow(strike: Option<int>, call: Option<real>, put: Option<real>, others: seq<bool>)

  /** A row of the cleaned chain: strike, call premium and put premium. */
  datatype Row = Row(strike: int, call: real, put: real)

  /** The two premium columns, `Call LTP` and `Put LTP`. */
  datatype Column = CallLtp | PutLtp

  /** A row survives cleaning when no cell of it is missing. */
  predicate Complete(x: RawRow) {
    && x.strike.Some? && x.call.Some? && x.put.Some?
    && forall j :: 0 <= j < |x.others| ==> x.others[j]
  }

  function ToRow(x: RawRow): Row
    requires Complete(x)
  {
    Row(x.strike.value, x.call.value, x.put.value)
  }

  /** Cleaning: drop every row with a missing cell, keeping the table order. */
  function Clean(raw: seq<RawRow>): (chain: seq<Row>)
    ensures |chain| <= |raw|
  {
    if raw == [] then []
    else if Complete(raw[0]) then [ToRow(raw[0])] + Clean(raw[1..])
    else Clean(raw[1..])
  }

  /** Every row of the cleaned chain comes from a complete row of the table,
      and every complete row of the table is in the cleaned chain. */
  lemma {:induction false} CleanKeepsExactlyComplete(raw: seq<RawRow>)
    ensures forall r :: r in Clean(raw) ==> exists i :: 0 <= i < |raw| && Complete(raw[i]) && ToRow(raw[i]) == r
    ensures forall i :: 0 <= i < |raw| && Complete(raw[i]) ==> ToRow(raw[i]) in Clean(raw)
  {
    if raw != [] {
      CleanKeepsExactlyComplete(raw[1..]);
      forall r | r in Clean(raw)
        ensures exists i :: 0 <= i < |raw| && Complete(raw[i]) && ToRow(raw[i]) == r
      {
        if Complete(raw[0]) && r == ToRow(raw[0]) {
          assert 0 < |raw|;
        } else {
          var i :| 0 <= i < |raw[1..]| && Complete(raw[1..][i]) && ToRow(raw[1..][i]) == r;
          assert raw[i + 1] == raw[1..][i];
        }
      }
      forall i | 0 <= i < |raw| && Complete(raw[i])
        ensures ToRow(raw[i]) in Clean(raw)
      {
        if i > 0 {
          assert raw[i] == raw[1..][i - 1];
        }
      }
    }
  }

  /** Cleaning is row by row: it distributes over concatenation, so the
      relative order of the kept rows is the table order. */
  lemma {:induction false} CleanAppend(a: seq<RawRow>, b: seq<RawRow>)
    ensures Clean(a + b) == Clean(a) + Clean(b)
  {
    if a == [] {
      assert a + b == b;
    } else {
      assert (a + b)[0] == a[0];
      assert (a + b)[1..] == a[1..] + b;
      CleanAppend(a[1..], b);
    }
  }

  /** The number of complete rows of the table. */
  function CountComplete(raw: seq<RawRow>): nat {
    if raw == [] then 0 else (if Complete(raw[0]) then 1 else 0) + CountComplete(raw[1..])
  }

  /** Cleaning keeps every complete row and only those: the cleaned chain
      has exactly as many rows as the table has complete rows. */
  lemma {:induction false} CleanLength(raw: seq<RawRow>)
    ensures |Clean(raw)| == CountComplete(raw)
  {
    if raw != [] {
      CleanLength(raw[1..]);
    }
  }

  /** A table with no complete row cleans to the empty chain. */
  lemma {:induction false} CleanEmptyWhenNoneComplete(raw: seq<RawRow>)
    requires forall i :: 0 <= i < |raw| ==> !Complete(raw[i])
    ensures Clean(raw) == []
  {
    if raw != [] {
      assert forall i :: 0 <= i < |raw[1..]| ==> raw[1..][i] == raw[i + 1];
      CleanEmptyWhenNoneComplete(raw[1..]);
    }
  }

  function Premium(row: Row, col: Column): real {
    match col
    case CallLtp => row.call
    case PutLtp => row.put
  }

  /** Some row of the chain has strike `k`. */
  predicate Listed(chain: seq<Row>, k: int) {
    exists i :: 0 <= i < |chain| && chain[i].strike == k
  }

  /** Row `i` is the first row of the chain whose strike is exactly `k`. */
  predicate FirstWithStrike(chain: seq<Row>, k: int, i: int) {
    && 0 <= i < |chain| && chain[i].strike == k
    && forall j :: 0 <= j < i ==> chain[j].strike != k
  }

  /** Position of the first row with strike `k`, if any. */
  function FindStrike(chain: seq<Row>, k: int): (r: Option<nat>)
    ensures r.None? <==> !Listed(chain, k)
    ensures r.Some? ==> FirstWithStrike(chain, k, r.value)
  {
    if chain == [] then None
    else if chain[0].strike == k then Some(0)
    else match FindStrike(chain[1..], k)
      case None => None
      case Some(i) => Some(i + 1)
  }

  /** `get_ltp`: the `col` premium of the first row whose strike equals `k`,
      or absent when no row has that strike. */
  function GetLtp(chain: seq<Row>, k: int, col: Column): (r: Option<real>)
    ensures r.None? <==> !Listed(chain, k)
    ensures r.Some? ==> exists i :: FirstWithStrike(chain, k, i) && r.value == Premium(chain[i], col)
  {
    match FindStrike(chain, k)
    case None => None
    case Some(i) => Some(Premium(chain[i], col))
  }

  /** The first row with strike `k` determines the lookup: its premium is
      what `GetLtp` returns, whatever later rows with that strike hold. */
  lemma GetLtpIsFirstMatch(chain: seq<Row>, k: int, col: Column, i: int)
    requires FirstWithStrike(chain, k, i)
    ensures GetLtp(chain, k, col) == Some(Premium(chain[i], col))
  {
  }
}
