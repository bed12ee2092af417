/**
 * The strike window of the option-chain table in client/src/App.js:
 * `getFilteredRows` keeps at most 31 strikes centred on the at-the-money
 * strike, and `formatNumber` renders one Greek.
 *
 * The chain's `oc` object is a map from strike to its per-strike data; the
 * keys are taken as the numbers `Number(key)` yields, so the string form of
 * the keys (and the `toFixed(6)` used to look them up again) is not modelled.
 */
module OptionTable {
  import opened Wrappers

  /** A JavaScript value read where a number is expected. */
  datatype JsNumber = Undefined | Null | Number(n: real)

  /** JavaScript truthiness of such a value: `undefined`, `null` and `0` are falsy. */
  predicate Truthy(v: JsNumber) {
    v.Number? && v.n != 0.0
  }

  /** One property of the chain's `oc` object: a strike key (as `Number(key)`) and its data. */
  datatype Entry<D> = Entry(strike: real, data: D)

  /**
   * The chain data the table is built from: `optionData.oc`, whose entries
   * are listed in the object's own key order, and `optionData.last_price`.
   */
  datatype ChainData<D> = ChainData(oc: Option<seq<Entry<D>>>, lastPrice: JsNumber)

  /** One table row: `{ strike, data }`. */
  datatype Row<D> = Row(strike: real, data: D)

  /** How many strikes below the at-the-money strike are kept. */
  const STRIKES_BELOW: int := 15
  /** End of the window relative to the at-the-money index (15 above plus the strike itself). */
  const STRIKES_TO_END: int := 16
  /** How many strikes above the at-the-money strike are kept. */
  const STRIKES_ABOVE: int := STRIKES_TO_END - 1
  /** The most rows the table shows. */
  const MAX_ROWS: int := STRIKES_BELOW + STRIKES_TO_END

  predicate Ascending(s: seq<real>) {
    forall i, j :: 0 <= i < j < |s| ==> s[i] <= s[j]
  }

  /** `Object.keys(oc).map(Number)`: the strikes, in the object's key order. */
  function Keys<D>(oc: seq<Entry<D>>): (ks: seq<real>)
    ensures |ks| == |oc|
    ensures forall i :: 0 <= i < |oc| ==> ks[i] == oc[i].strike
    decreases |oc|
  {
    if |oc| == 0 then [] else [oc[0].strike] + Keys(oc[1..])
  }

  /** `oc[strike]`: the data of the entry whose key is `strike`. */
  function Lookup<D>(oc: seq<Entry<D>>, strike: real): (d: D)
    requires strike in Keys(oc)
    ensures exists j :: 0 <= j < |oc| && oc[j] == Entry(strike, d)
                        && (forall i :: 0 <= i < j ==> oc[i].strike != strike)
    decreases |oc|
  {
    if oc[0].strike == strike then oc[0].data
    else
      assert strike in Keys(oc[1..]) by {
        var j :| 0 <= j < |oc| && Keys(oc)[j] == strike;
        assert Keys(oc[1..])[j - 1] == strike;
      }
      var d := Lookup(oc[1..], strike);
      assert exists j :: 0 <= j < |oc| && oc[j] == Entry(strike, d)
                         && (forall i :: 0 <= i < j ==> oc[i].strike != strike) by {
        var j :| 0 <= j < |oc[1..]| && oc[1..][j] == Entry(strike, d)
                 && (forall i :: 0 <= i < j ==> oc[1..][i].strike != strike);
        assert oc[j + 1] == Entry(strike, d);
        forall i | 0 <= i < j + 1 ensures oc[i].strike != strike {
          if i > 0 { assert oc[i] == oc[1..][i - 1]; }
        }
      }
      d
  }

  /** Inserts `x` into an ascending sequence. */
  function Insert(x: real, s: seq<real>): (r: seq<real>)
    requires Ascending(s)
    ensures Ascending(r)
    ensures multiset(r) == multiset(s) + multiset{x}
    ensures |r| > 0 && r[0] == (if |s| == 0 || x <= s[0] then x else s[0])
    decreases |s|
  {
    if |s| == 0 || x <= s[0] then [x] + s
    else
      assert s == [s[0]] + s[1..];
      [s[0]] + Insert(x, s[1..])
  }

  /** `strikes.sort((a, b) => a - b)`: the same strikes in ascending numeric order. */
  function Sort(s: seq<real>): (r: seq<real>)
    ensures Ascending(r)
    ensures multiset(r) == multiset(s)
    decreases |s|
  {
    if |s| == 0 then []
    else
      assert s == [s[0]] + s[1..];
      Insert(s[0], Sort(s[1..]))
  }

  /** Any ascending permutation of the strikes is the sorted one: the order of a sort is unique. */
  lemma {:induction false} SortUnique(s: seq<real>, t: seq<real>)
    requires Ascending(t) && multiset(t) == multiset(s)
    ensures t == Sort(s)
    decreases |s|
  {
    AscendingPermutationsEqual(t, Sort(s));
  }

  lemma {:induction false} AscendingPermutationsEqual(a: seq<real>, b: seq<real>)
    requires Ascending(a) && Ascending(b) && multiset(a) == multiset(b)
    ensures a == b
    decreases |a|
  {
    assert |b| == |multiset(b)| == |multiset(a)| == |a|;
    if |a| > 0 {
      assert a[0] == b[0] by {
        HeadIsLeast(b, a[0]);
        HeadIsLeast(a, b[0]);
      }
      TailMultiset(a);
      TailMultiset(b);
      AscendingPermutationsEqual(a[1..], b[1..]);
      assert a == [a[0]] + a[1..] && b == [b[0]] + b[1..];
    }
  }

  /** The head of an ascending sequence is its least element. */
  lemma HeadIsLeast(s: seq<real>, x: real)
    requires Ascending(s) && x in multiset(s)
    ensures |s| > 0 && s[0] <= x
  {
    var i :| 0 <= i < |s| && s[i] == x;
    assert s[0] <= s[i];
  }

  lemma TailMultiset(s: seq<real>)
    requires |s| > 0
    ensures multiset(s[1..]) == multiset(s) - multiset{s[0]}
  {
    assert s == [s[0]] + s[1..];
  }

  /** `findIndex(strike => strike >= price)`: the first index at or above `price`, or -1. */
  function FindIndex(s: seq<real>, price: real): (i: int)
    ensures -1 <= i < |s|
    ensures i == -1 <==> forall j :: 0 <= j < |s| ==> s[j] < price
    ensures 0 <= i ==> price <= s[i] && forall j :: 0 <= j < i ==> s[j] < price
    decreases |s|
  {
    if |s| == 0 then -1
    else if s[0] >= price then 0
    else
      var k := FindIndex(s[1..], price);
      if k == -1 then -1 else k + 1
  }

  /** The at-the-money index: the first strike at or above `price`, else the last index. */
  function ClosestIndex(s: seq<real>, price: real): (i: int)
    ensures |s| == 0 <==> i == -1
    ensures |s| > 0 ==> 0 <= i < |s|
    ensures (exists j :: 0 <= j < |s| && price <= s[j]) ==>
      price <= s[i] && forall j :: 0 <= j < i ==> s[j] < price
    ensures (forall j :: 0 <= j < |s| ==> s[j] < price) ==> i == |s| - 1
  {
    var k := FindIndex(s, price);
    if k == -1 then |s| - 1 else k
  }

  /** `Math.max(0, closestIndex - 15)` */
  function WindowStart(ci: int): int {
    if ci - STRIKES_BELOW > 0 then ci - STRIKES_BELOW else 0
  }

  /** `Math.min(sortedStrikes.length, closestIndex + 16)` */
  function WindowEnd(len: int, ci: int): int {
    if len < ci + STRIKES_TO_END then len else ci + STRIKES_TO_END
  }

  /**
   * The contiguous slice of `s` from `max(0, ci - 15)` up to
   * `min(len, ci + 16)`, where `ci` is the at-the-money index.
   */
  function Window(s: seq<real>, price: real): (w: seq<real>)
    ensures var ci := ClosestIndex(s, price);
      // the bounds never need `slice`'s clamping, so it agrees with `s[a..b]`
      && 0 <= WindowStart(ci) <= WindowEnd(|s|, ci) <= |s|
      && |w| == WindowEnd(|s|, ci) - WindowStart(ci)
  {
    var ci := ClosestIndex(s, price);
    s[WindowStart(ci)..WindowEnd(|s|, ci)]
  }

  /** The window holds at most 31 strikes, every one of them a strike of `s`. */
  lemma WindowBounds(s: seq<real>, price: real)
    ensures |Window(s, price)| <= MAX_ROWS
    ensures forall i :: 0 <= i < |Window(s, price)| ==> Window(s, price)[i] in s
  {
    var w := Window(s, price);
    var lo := WindowStart(ClosestIndex(s, price));
    forall i | 0 <= i < |w| ensures w[i] in s {
      assert w[i] == s[lo + i];
    }
  }

  /** A window of ascending strikes is ascending. */
  lemma WindowAscending(s: seq<real>, price: real)
    requires Ascending(s)
    ensures Ascending(Window(s, price))
  {
    var w := Window(s, price);
    var lo := WindowStart(ClosestIndex(s, price));
    forall i, j | 0 <= i < j < |w| ensures w[i] <= w[j] {
      assert w[i] == s[lo + i] && w[j] == s[lo + j];
    }
  }

  /**
   * When there are strikes, the at-the-money strike is in the window, with
   * `min(ci, 15)` strikes before it and `min(len - 1 - ci, 15)` after it.
   */
  lemma WindowCentresOnAtm(s: seq<real>, price: real)
    requires |s| > 0
    ensures var ci := ClosestIndex(s, price);
      var w := Window(s, price);
      var below := if ci < STRIKES_BELOW then ci else STRIKES_BELOW;
      var above := if |s| - 1 - ci < STRIKES_ABOVE then |s| - 1 - ci else STRIKES_ABOVE;
      && 0 <= ci < |s|
      && |w| == below + 1 + above
      && w[below] == s[ci]
  {
  }

  /**
   * No strike is skipped: a strike of an ascending `s` is in the window
   * exactly when it lies between the window's first and last strike.
   */
  lemma WindowContiguous(s: seq<real>, price: real, k: real)
    requires Ascending(s)
    requires k in s
    ensures var w := Window(s, price);
      |w| > 0 && (k in w <==> w[0] <= k <= w[|w| - 1])
  {
    var w := Window(s, price);
    var j :| 0 <= j < |s| && s[j] == k;
    if w[0] <= k <= w[|w| - 1] {
      BetweenEndsIsInWindow(s, price, j);
    }
    if k in w {
      WindowAscending(s, price);
      var i :| 0 <= i < |w| && w[i] == k;
      assert w[0] <= w[i] <= w[|w| - 1];
    }
  }

  lemma BetweenEndsIsInWindow(s: seq<real>, price: real, j: int)
    requires Ascending(s) && 0 <= j < |s|
    ensures var w := Window(s, price);
      |w| > 0 && (w[0] <= s[j] <= w[|w| - 1] ==> s[j] in w)
  {
    var ci := ClosestIndex(s, price);
    var lo, hi := WindowStart(ci), WindowEnd(|s|, ci);
    var w := Window(s, price);
    assert w[0] == s[lo] && w[|w| - 1] == s[hi - 1];
    if j < lo {
      assert s[j] <= s[lo];
    } else if j >= hi {
      assert s[hi - 1] <= s[j];
    } else {
      assert w[j - lo] == s[j];
    }
  }

  /** No strikes: `closestIndex = -1`, `start = 0`, `end = 0` and an empty window. */
  lemma EmptyWindow(price: real)
    ensures ClosestIndex([], price) == -1
    ensures WindowStart(-1) == 0 && WindowEnd(0, -1) == 0
    ensures Window([], price) == []
  {
  }

  /** The guard of `getFilteredRows`: there is an `oc` object and a truthy `last_price`. */
  predicate HasChain<D>(optionData: Option<ChainData<D>>) {
    optionData.Some? && optionData.value.oc.Some? && Truthy(optionData.value.lastPrice)
  }

  /** `sortedStrikes`: the chain's strikes in ascending order. */
  function ChainStrikes<D>(data: ChainData<D>): (s: seq<real>)
    requires data.oc.Some?
    ensures Ascending(s)
    ensures multiset(s) == multiset(Keys(data.oc.value))
  {
    Sort(Keys(data.oc.value))
  }

  /** The strikes the table shows. */
  function WindowStrikes<D>(data: ChainData<D>): (w: seq<real>)
    requires data.oc.Some? && data.lastPrice.Number?
    ensures forall i :: 0 <= i < |w| ==> w[i] in Keys(data.oc.value)
  {
    var s := ChainStrikes(data);
    WindowBounds(s, data.lastPrice.n);
    var w := Window(s, data.lastPrice.n);
    assert forall i :: 0 <= i < |w| ==> w[i] in multiset(s);
    w
  }

  /** Pairs each strike with its entry of `oc` (`data: optionData.oc[strike]`). */
  function RowsOf<D>(oc: seq<Entry<D>>, w: seq<real>): (r: seq<Row<D>>)
    requires forall i :: 0 <= i < |w| ==> w[i] in Keys(oc)
    ensures |r| == |w|
    ensures forall i :: 0 <= i < |w| ==> r[i].strike == w[i] && r[i].data == Lookup(oc, w[i])
    decreases |w|
  {
    if |w| == 0 then [] else [Row(w[0], Lookup(oc, w[0]))] + RowsOf(oc, w[1..])
  }

  /** `getFilteredRows()` */
  function GetFilteredRows<D>(optionData: Option<ChainData<D>>): (rows: seq<Row<D>>)
    ensures !HasChain(optionData) ==> rows == []
    ensures HasChain(optionData) ==> forall i :: 0 <= i < |rows| ==>
      rows[i].strike in Keys(optionData.value.oc.value)
      && rows[i].data == Lookup(optionData.value.oc.value, rows[i].strike)
  {
    if !HasChain(optionData) then []
    else RowsOf(optionData.value.oc.value, WindowStrikes(optionData.value))
  }

  /** The strike column of the table. */
  function Strikes<D>(rows: seq<Row<D>>): seq<real> {
    seq(|rows|, i requires 0 <= i < |rows| => rows[i].strike)
  }

  /** The strike column of the table is the window of the chain's sorted strikes. */
  lemma FilteredStrikesAreWindow<D>(data: ChainData<D>)
    requires data.oc.Some? && Truthy(data.lastPrice)
    ensures Strikes(GetFilteredRows(Some(data))) == Window(ChainStrikes(data), data.lastPrice.n)
  {
    var w := WindowStrikes(data);
    var st := Strikes(GetFilteredRows(Some(data)));
    assert |st| == |w|;
    assert forall i :: 0 <= i < |w| ==> st[i] == w[i];
  }

  /**
   * The table is the contiguous slice of the sorted strikes from
   * `max(0, ci - 15)` up to `min(len, ci + 16)`: at most 31 strikes, in
   * ascending order.
   */
  lemma FilteredRowsWindow<D>(data: ChainData<D>)
    requires data.oc.Some? && Truthy(data.lastPrice)
    ensures var s := ChainStrikes(data);
      var ci := ClosestIndex(s, data.lastPrice.n);
      var rows := GetFilteredRows(Some(data));
      && Strikes(rows) == s[WindowStart(ci)..WindowEnd(|s|, ci)]
      && |rows| <= MAX_ROWS
      && Ascending(Strikes(rows))
  {
    FilteredStrikesAreWindow(data);
    WindowBounds(ChainStrikes(data), data.lastPrice.n);
    WindowAscending(ChainStrikes(data), data.lastPrice.n);
  }

  /** Whatever the input, the rows come back in ascending strike order. */
  lemma FilteredRowsAscending<D>(optionData: Option<ChainData<D>>)
    ensures Ascending(Strikes(GetFilteredRows(optionData)))
  {
    if HasChain(optionData) {
      FilteredRowsWindow(optionData.value);
    }
  }

  /**
   * For a chain with strikes, the at-the-money strike is in the table, with
   * `min(ci, 15)` rows before it and `min(len - 1 - ci, 15)` rows after it.
   */
  lemma FilteredRowsCentreOnAtm<D>(data: ChainData<D>)
    requires data.oc.Some? && Truthy(data.lastPrice) && |data.oc.value| > 0
    ensures var s := ChainStrikes(data);
      var ci := ClosestIndex(s, data.lastPrice.n);
      var rows := GetFilteredRows(Some(data));
      var below := if ci < STRIKES_BELOW then ci else STRIKES_BELOW;
      var above := if |s| - 1 - ci < STRIKES_ABOVE then |s| - 1 - ci else STRIKES_ABOVE;
      && 0 <= ci < |s|
      && |rows| == below + 1 + above
      && rows[below].strike == s[ci]
  {
    var s := ChainStrikes(data);
    assert |s| == |multiset(s)| == |Keys(data.oc.value)|;
    FilteredStrikesAreWindow(data);
    WindowCentresOnAtm(s, data.lastPrice.n);
  }

  /**
   * No strike of the chain is skipped: a key of `oc` is in the table exactly
   * when it lies between the first and the last strike shown.
   */
  lemma FilteredRowsContiguous<D>(data: ChainData<D>, k: real)
    requires data.oc.Some? && Truthy(data.lastPrice)
    requires k in Keys(data.oc.value)
    ensures var w := Strikes(GetFilteredRows(Some(data)));
      |w| > 0 && (k in w <==> w[0] <= k <= w[|w| - 1])
  {
    var s := ChainStrikes(data);
    assert k in multiset(s);
    FilteredStrikesAreWindow(data);
    WindowContiguous(s, data.lastPrice.n, k);
  }

  /** An empty `oc` object gives `closestIndex = -1`, `start = 0`, `end = 0` and no rows. */
  lemma EmptyChainGivesNoRows<D>(price: JsNumber)
    requires Truthy(price)
    ensures var data: ChainData<D> := ChainData(Some([]), price);
      && ClosestIndex(ChainStrikes(data), price.n) == -1
      && GetFilteredRows(Some(data)) == []
  {
    var data: ChainData<D> := ChainData(Some([]), price);
    assert |ChainStrikes(data)| == |multiset(Keys(data.oc.value))| == 0;
    EmptyWindow(price.n);
  }

  /** A rendered table cell: the `toFixed(4)` text of the number, the dash, or a thrown `TypeError`. */
  datatype Cell = Dash | Fixed4(value: real) | Throws

  /**
   * `formatNumber`: `'-'` exactly when the value is `undefined`; a number is
   * formatted; `null` passes the `!== undefined` test and `null.toFixed`
   * throws.
   */
  function FormatNumber(v: JsNumber): (c: Cell)
    ensures c == Dash <==> v == Undefined
    ensures c.Fixed4? <==> v.Number?
    ensures c.Fixed4? ==> c.value == v.n
    ensures c == Throws <==> v == Null
  {
    match v
    case Undefined => Dash
    case Null => Throws
    case Number(n) => Fixed4(n)
  }
}
