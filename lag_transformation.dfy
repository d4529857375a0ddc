/**
 * The lag transformation: for every column and every lag it adds a copy of
 * the column shifted by the lag (in days of 24 rows or in hours), named
 * after the column, the lag unit, the lag's direction and its size.  The
 * new columns follow the original ones, which are kept as they are.
 */
module LagTransformation {
  import opened Wrappers
  import opened Text
  import opened OrderedDict
  import opened Frame

  datatype LagType = Day | Hour

  datatype Lag = Lag(columns: seq<string>, lags: seq<int>, lagType: LagType)

  datatype LagError =
    | MissingColumn(name: string)   // `data[column]` on a column the frame lacks
    | AttributeError                // the as-written lookup of the undeclared `type` attribute

  function Abs(n: int): nat {
    if n < 0 then -n else n
  }

  /** `f"{column}_{unit}{sign}{abs(lag)}"`: `-` marks a lag into the past (or none), `+` one into the future. */
  function LagName(column: string, lag: int, lagType: LagType): string {
    column + "_" + (if lagType == Day then "d" else "h") + (if lag >= 0 then "-" else "+") + NatToString(Abs(lag))
  }

  /** For one column and unit, different lags give different names. */
  lemma LagNameInjective(column: string, a: int, b: int, lagType: LagType)
    ensures LagName(column, a, lagType) == LagName(column, b, lagType) <==> a == b
  {
    if LagName(column, a, lagType) == LagName(column, b, lagType) {
      var n := |column| + 3;
      var sa, sb := LagName(column, a, lagType), LagName(column, b, lagType);
      assert sa[n - 1] == (if a >= 0 then '-' else '+');
      assert sb[n - 1] == (if b >= 0 then '-' else '+');
      assert sa[n..] == NatToString(Abs(a));
      assert sb[n..] == NatToString(Abs(b));
      NatToStringInjective(Abs(a), Abs(b));
    }
  }

  /** Rows to shift by: 24 per day lag, 1 per hour lag. */
  function ShiftAmount(lag: int, lagType: LagType): (k: int)
    ensures lagType == Day ==> k == 24 * lag
    ensures lagType == Hour ==> k == lag
  {
    lag * (if lagType == Day then 24 else 1)
  }

  /** `Series.shift(k)`: row i takes the value k rows earlier, missing where that falls outside the column. */
  function Shift(values: seq<Value>, k: int): (r: seq<Value>)
    ensures |r| == |values|
  {
    seq(|values|, i requires 0 <= i < |values| => if 0 <= i - k < |values| then values[i - k] else Missing)
  }

  /** The value at row i of a shifted column is the value at row i − k, or missing out of range. */
  lemma ShiftAt(values: seq<Value>, k: int, i: nat)
    requires i < |values|
    ensures Shift(values, k)[i] == if 0 <= i - k < |values| then values[i - k] else Missing
  {
  }

  /** Shifting twice in the same direction is one shift by the sum. */
  lemma ShiftShift(values: seq<Value>, a: int, b: int)
    requires (a >= 0 && b >= 0) || (a <= 0 && b <= 0)
    ensures Shift(Shift(values, a), b) == Shift(values, a + b)
  {
    var l, r := Shift(Shift(values, a), b), Shift(values, a + b);
    forall i | 0 <= i < |values|
      ensures l[i] == r[i]
    {
      ShiftAt(Shift(values, a), b, i);
      if 0 <= i - b < |values| {
        ShiftAt(values, a, i - b);
      }
    }
  }

  /**
   * A lag of k days moves the column as far as a lag of 24k hours, and in the
   * past direction one more day is one more shift by a day's 24 rows.
   */
  lemma DayLagInHours(values: seq<Value>, lag: int)
    ensures ShiftAmount(lag, Day) == ShiftAmount(24 * lag, Hour)
    ensures lag >= 0 ==> Shift(values, ShiftAmount(lag + 1, Day)) == Shift(Shift(values, ShiftAmount(lag, Day)), 24)
  {
    if lag >= 0 {
      ShiftShift(values, 24 * lag, 24);
      assert ShiftAmount(lag + 1, Day) == 24 * lag + 24;
    }
  }

  /** A lag into the past never reads a later row. */
  lemma PastLagReadsEarlierRows(values: seq<Value>, lag: int, lagType: LagType, i: nat)
    requires lag >= 0 && i < |values|
    ensures Shift(values, ShiftAmount(lag, lagType))[i] == Missing
         || exists j :: 0 <= j <= i && Shift(values, ShiftAmount(lag, lagType))[i] == values[j]
  {
    var k := ShiftAmount(lag, lagType);
    if 0 <= i - k < |values| {
      assert Shift(values, k)[i] == values[i - k];
    }
  }

  /** The (column, lag) pairs in the order of the nested loops: columns outside, lags inside. */
  function Pairs(columns: seq<string>, lags: seq<int>): seq<(string, int)> {
    if columns == [] then []
    else Pairs(columns[..|columns| - 1], lags) + Row(columns[|columns| - 1], lags)
  }

  function Row(column: string, lags: seq<int>): (r: seq<(string, int)>)
    ensures |r| == |lags| && forall j :: 0 <= j < |lags| ==> r[j] == (column, lags[j])
  {
    seq(|lags|, j requires 0 <= j < |lags| => (column, lags[j]))
  }

  lemma {:induction false} PairsLength(columns: seq<string>, lags: seq<int>)
    ensures |Pairs(columns, lags)| == |columns| * |lags|
  {
    if columns != [] {
      var n := |columns| - 1;
      PairsLength(columns[..n], lags);
      assert |Pairs(columns, lags)| == n * |lags| + |lags|;
      assert (n + 1) * |lags| == n * |lags| + |lags|;
    }
  }

  /** The pair at position c·|lags| + l is (columns[c], lags[l]). */
  lemma {:induction false} PairsAt(columns: seq<string>, lags: seq<int>, c: nat, l: nat)
    requires c < |columns| && l < |lags|
    ensures c * |lags| + l < |Pairs(columns, lags)|
    ensures Pairs(columns, lags)[c * |lags| + l] == (columns[c], lags[l])
  {
    var n := |columns| - 1;
    PairsLength(columns[..n], lags);
    PairsLength(columns, lags);
    if c < n {
      PairsAt(columns[..n], lags, c, l);
      assert c * |lags| + l < n * |lags| by {
        MulLess(c, n, |lags|, l);
      }
    }
  }

  lemma MulLess(c: nat, n: nat, m: nat, l: nat)
    requires c < n && l < m
    ensures c * m + l < n * m
  {
    assert (c + 1) * m <= n * m;
  }

  /** The `new_columns` dictionary after the given pairs, or the missing column first met. */
  function NewColumns(t: Table, pairs: seq<(string, int)>, lagType: LagType): Result<Dict<seq<Value>>, LagError> {
    if pairs == [] then Ok([])
    else
      var prev := NewColumns(t, pairs[..|pairs| - 1], lagType);
      var (column, lag) := pairs[|pairs| - 1];
      var source := Get(t, column);
      if prev.Err? then prev
      else if source.None? then Err(MissingColumn(column))
      else Ok(Put(prev.value, LagName(column, lag, lagType), Shift(source.value, ShiftAmount(lag, lagType))))
  }

  /** `transform` with the intended unit: the original columns, then the lagged ones. */
  function Transform(l: Lag, t: Table): Result<Table, LagError> {
    var added := NewColumns(t, Pairs(l.columns, l.lags), l.lagType);
    if added.Err? then Err(added.error) else Ok(Table(t.index, t.cols + added.value))
  }

  /** The new columns are named by their pairs, each name once, in order of first use. */
  lemma {:induction false} NewColumnsKeys(t: Table, pairs: seq<(string, int)>, lagType: LagType, k: string)
    requires NewColumns(t, pairs, lagType).Ok?
    ensures DistinctKeys(NewColumns(t, pairs, lagType).value)
    ensures k in Keys(NewColumns(t, pairs, lagType).value) <==>
      exists j :: 0 <= j < |pairs| && LagName(pairs[j].0, pairs[j].1, lagType) == k
  {
    NewColumnsDistinct(t, pairs, lagType);
    NewColumnsMember(t, pairs, lagType, k);
  }

  lemma {:induction false} NewColumnsDistinct(t: Table, pairs: seq<(string, int)>, lagType: LagType)
    requires NewColumns(t, pairs, lagType).Ok?
    ensures DistinctKeys(NewColumns(t, pairs, lagType).value)
  {
    if pairs != [] {
      var n := |pairs| - 1;
      var init, last := pairs[..n], pairs[n];
      assert pairs == init + [last];
      NewColumnsSnoc(t, init, last, lagType);
      NewColumnsDistinct(t, init, lagType);
      var name, shifted := LagName(last.0, last.1, lagType), Shift(Get(t, last.0).value, ShiftAmount(last.1, lagType));
      PutKeys(NewColumns(t, init, lagType).value, name, shifted);
    }
  }

  lemma {:induction false} NewColumnsMember(t: Table, pairs: seq<(string, int)>, lagType: LagType, k: string)
    requires NewColumns(t, pairs, lagType).Ok?
    ensures k in Keys(NewColumns(t, pairs, lagType).value) <==>
      exists j :: 0 <= j < |pairs| && LagName(pairs[j].0, pairs[j].1, lagType) == k
  {
    if pairs != [] {
      var n := |pairs| - 1;
      var init, last := pairs[..n], pairs[n];
      assert pairs == init + [last];
      NewColumnsSnoc(t, init, last, lagType);
      var prev := NewColumns(t, init, lagType).value;
      NewColumnsMember(t, init, lagType, k);
      var name, shifted := LagName(last.0, last.1, lagType), Shift(Get(t, last.0).value, ShiftAmount(last.1, lagType));
      PutKeys(prev, name, shifted);
      assert k in Keys(Put(prev, name, shifted)) <==> k in Keys(prev) || k == name;
      if k in Keys(prev) {
        var j :| 0 <= j < n && LagName(init[j].0, init[j].1, lagType) == k;
        assert pairs[j] == init[j];
      } else if k != name {
        forall j | 0 <= j < |pairs|
          ensures LagName(pairs[j].0, pairs[j].1, lagType) != k
        {
          if j < n {
            assert init[j] == pairs[j];
          }
        }
      }
    }
  }

  /** A name holds the shifted column of the last pair that produces it. */
  lemma {:induction false} NewColumnsValue(t: Table, pairs: seq<(string, int)>, lagType: LagType, j: nat)
    requires NewColumns(t, pairs, lagType).Ok?
    requires j < |pairs|
    requires forall i :: j < i < |pairs| ==>
      LagName(pairs[i].0, pairs[i].1, lagType) != LagName(pairs[j].0, pairs[j].1, lagType)
    ensures Get(t, pairs[j].0).Some?
    ensures Lookup(NewColumns(t, pairs, lagType).value, LagName(pairs[j].0, pairs[j].1, lagType))
         == Some(Shift(Get(t, pairs[j].0).value, ShiftAmount(pairs[j].1, lagType)))
  {
    var n := |pairs| - 1;
    var prev := NewColumns(t, pairs[..n], lagType).value;
    var (column, lag) := pairs[n];
    PutLookup(prev, LagName(column, lag, lagType), Shift(Get(t, column).value, ShiftAmount(lag, lagType)));
    if j < n {
      assert pairs[..n][j] == pairs[j];
      NewColumnsValue(t, pairs[..n], lagType, j);
    }
  }

  /** Every lagged column has one value per row. */
  lemma {:induction false} NewColumnsHeight(t: Table, pairs: seq<(string, int)>, lagType: LagType)
    requires WellFormed(t) && NewColumns(t, pairs, lagType).Ok?
    ensures WellFormed(Table(t.index, NewColumns(t, pairs, lagType).value))
  {
    if pairs != [] {
      var n := |pairs| - 1;
      var prev := NewColumns(t, pairs[..n], lagType).value;
      var (column, lag) := pairs[n];
      NewColumnsHeight(t, pairs[..n], lagType);
      GetWellFormed(t, column);
      SetEffect(Table(t.index, prev), LagName(column, lag, lagType), Shift(Get(t, column).value, ShiftAmount(lag, lagType)));
    }
  }

  /** The call fails exactly when some column to lag is missing, there being at least one lag. */
  lemma {:induction false} NewColumnsFails(t: Table, pairs: seq<(string, int)>, lagType: LagType)
    ensures NewColumns(t, pairs, lagType).Err? <==> exists j :: 0 <= j < |pairs| && Get(t, pairs[j].0).None?
    ensures NewColumns(t, pairs, lagType).Err? ==> NewColumns(t, pairs, lagType).error.MissingColumn?
  {
    if pairs != [] {
      var n := |pairs| - 1;
      var init, last := pairs[..n], pairs[n];
      assert pairs == init + [last];
      NewColumnsSnoc(t, init, last, lagType);
      NewColumnsFails(t, init, lagType);
      if NewColumns(t, init, lagType).Err? {
        var j :| 0 <= j < n && Get(t, init[j].0).None?;
        assert pairs[j] == init[j];
      } else if Get(t, last.0).Some? {
        forall j | 0 <= j < |pairs|
          ensures Get(t, pairs[j].0).Some?
        {
          if j < n {
            assert init[j] == pairs[j];
          }
        }
      }
    }
  }

  /**
   * The result keeps the original columns first and unchanged, appends one
   * column per distinct lagged name, and keeps the index; with a
   * well-formed input it is well formed.
   */
  lemma TransformShape(l: Lag, t: Table)
    requires Transform(l, t).Ok?
    ensures Transform(l, t).value.index == t.index
    ensures Transform(l, t).value.cols[..|t.cols|] == t.cols
    ensures WellFormed(t) ==> WellFormed(Transform(l, t).value)
  {
    var added := NewColumns(t, Pairs(l.columns, l.lags), l.lagType).value;
    assert (t.cols + added)[..|t.cols|] == t.cols;
    if WellFormed(t) {
      NewColumnsHeight(t, Pairs(l.columns, l.lags), l.lagType);
      var r := Transform(l, t).value;
      forall i | 0 <= i < |r.cols|
        ensures |r.cols[i].value| == |r.index|
      {
        if i >= |t.cols| {
          assert r.cols[i] == added[i - |t.cols|];
        }
      }
    }
  }

  /** Without columns or without lags nothing is added. */
  lemma NothingToLag(l: Lag, t: Table)
    requires l.columns == [] || l.lags == []
    ensures Transform(l, t) == Ok(t)
  {
    PairsLength(l.columns, l.lags);
    assert t.cols + [] == t.cols;
  }

  lemma NewColumnsSnoc(t: Table, pairs: seq<(string, int)>, p: (string, int), lagType: LagType)
    ensures NewColumns(t, pairs + [p], lagType)
         == (var prev := NewColumns(t, pairs, lagType);
             if prev.Err? then prev
             else if Get(t, p.0).None? then Err(MissingColumn(p.0))
             else Ok(Put(prev.value, LagName(p.0, p.1, lagType), Shift(Get(t, p.0).value, ShiftAmount(p.1, lagType)))))
  {
    assert (pairs + [p])[..|pairs|] == pairs;
  }

  /** A failure stays a failure whatever pairs follow. */
  lemma {:induction false} NewColumnsErrSticks(t: Table, pairs: seq<(string, int)>, more: seq<(string, int)>, lagType: LagType)
    requires NewColumns(t, pairs, lagType).Err?
    ensures NewColumns(t, pairs + more, lagType) == NewColumns(t, pairs, lagType)
  {
    if more == [] {
      assert pairs + more == pairs;
    } else {
      var m := |more| - 1;
      NewColumnsErrSticks(t, pairs, more[..m], lagType);
      assert pairs + more == (pairs + more[..m]) + [more[m]];
      NewColumnsSnoc(t, pairs + more[..m], more[m], lagType);
    }
  }

  lemma PairsSnoc(columns: seq<string>, lags: seq<int>, c: nat)
    requires c < |columns|
    ensures Pairs(columns[..c + 1], lags) == Pairs(columns[..c], lags) + Row(columns[c], lags)
  {
    assert columns[..c + 1][..c] == columns[..c];
  }

  /** Pairs done so far: all pairs of the first c columns, then column c with its first j lags. */
  function Done(l: Lag, c: nat, j: nat): seq<(string, int)>
    requires c < |l.columns| && j <= |l.lags|
  {
    Pairs(l.columns[..c], l.lags) + Row(l.columns[c], l.lags[..j])
  }

  /** One turn of the inner loop on a present column. */
  lemma StepOk(l: Lag, t: Table, c: nat, j: nat, added: Dict<seq<Value>>)
    requires c < |l.columns| && j < |l.lags|
    requires NewColumns(t, Done(l, c, j), l.lagType) == Ok(added)
    requires Get(t, l.columns[c]).Some?
    ensures NewColumns(t, Done(l, c, j + 1), l.lagType)
         == Ok(Put(added, LagName(l.columns[c], l.lags[j], l.lagType),
                   Shift(Get(t, l.columns[c]).value, ShiftAmount(l.lags[j], l.lagType))))
  {
    assert Done(l, c, j) + [(l.columns[c], l.lags[j])] == Done(l, c, j + 1);
    NewColumnsSnoc(t, Done(l, c, j), (l.columns[c], l.lags[j]), l.lagType);
  }

  /** One turn of the inner loop on a missing column: the whole transform fails with it. */
  lemma StepErr(l: Lag, t: Table, c: nat, j: nat, added: Dict<seq<Value>>)
    requires c < |l.columns| && j < |l.lags|
    requires NewColumns(t, Done(l, c, j), l.lagType) == Ok(added)
    requires Get(t, l.columns[c]).None?
    ensures Transform(l, t) == Err(MissingColumn(l.columns[c]))
  {
    var upTo := Done(l, c, j) + [(l.columns[c], l.lags[j])];
    assert upTo == Done(l, c, j + 1);
    NewColumnsSnoc(t, Done(l, c, j), (l.columns[c], l.lags[j]), l.lagType);
    PairsPrefixOfAll(l.columns, l.lags, c, j);
    var all := Pairs(l.columns, l.lags);
    assert all == upTo + all[|upTo|..];
    NewColumnsErrSticks(t, upTo, all[|upTo|..], l.lagType);
  }

  /** The inner loop starts where the previous columns left off and ends where the next column starts. */
  lemma DoneBounds(l: Lag, c: nat)
    requires c < |l.columns|
    ensures Done(l, c, 0) == Pairs(l.columns[..c], l.lags)
    ensures Done(l, c, |l.lags|) == Pairs(l.columns[..c + 1], l.lags)
  {
    PairsSnoc(l.columns, l.lags, c);
    assert l.lags[..|l.lags|] == l.lags;
    assert Row(l.columns[c], l.lags[..0]) == [];
  }

  /** The nested loops of `transform`, with the intended `lag_type`. */
  method TransformLoop(l: Lag, t: Table) returns (r: Result<Table, LagError>)
    ensures r == Transform(l, t)
  {
    var added: Dict<seq<Value>> := [];
    for c := 0 to |l.columns|
      invariant NewColumns(t, Pairs(l.columns[..c], l.lags), l.lagType) == Ok(added)
    {
      var column := l.columns[c];
      DoneBounds(l, c);
      for j := 0 to |l.lags|
        invariant NewColumns(t, Done(l, c, j), l.lagType) == Ok(added)
      {
        var lag := l.lags[j];
        var source := Get(t, column);
        if source.None? {
          StepErr(l, t, c, j, added);
          return Err(MissingColumn(column));
        }
        StepOk(l, t, c, j, added);
        added := Put(added, LagName(column, lag, l.lagType), Shift(source.value, ShiftAmount(lag, l.lagType)));
      }
    }
    assert l.columns[..|l.columns|] == l.columns;
    r := Ok(Table(t.index, t.cols + added));
  }

  predicate IsPrefix<T(==)>(a: seq<T>, b: seq<T>) {
    |a| <= |b| && b[..|a|] == a
  }

  /** The pairs of the first c columns come first. */
  lemma {:induction false} PairsPrefix(columns: seq<string>, lags: seq<int>, c: nat)
    requires c <= |columns|
    ensures IsPrefix(Pairs(columns[..c], lags), Pairs(columns, lags))
  {
    if c < |columns| {
      var n := |columns| - 1;
      assert columns[..n][..c] == columns[..c];
      PairsPrefix(columns[..n], lags, c);
      var a, b := Pairs(columns[..c], lags), Pairs(columns[..n], lags);
      assert Pairs(columns, lags) == b + Row(columns[n], lags);
      assert (b + Row(columns[n], lags))[..|a|] == b[..|a|];
    } else {
      assert columns[..c] == columns;
    }
  }

  lemma IsPrefixTrans<T>(a: seq<T>, b: seq<T>, c: seq<T>)
    requires IsPrefix(a, b) && IsPrefix(b, c)
    ensures IsPrefix(a, c)
  {
    assert c[..|a|] == c[..|b|][..|a|];
  }

  /** What the loops have done up to and including (columns[c], lags[j]) is a prefix of all pairs. */
  lemma PairsPrefixOfAll(columns: seq<string>, lags: seq<int>, c: nat, j: nat)
    requires c < |columns| && j < |lags|
    ensures IsPrefix(Pairs(columns[..c], lags) + Row(columns[c], lags[..j + 1]), Pairs(columns, lags))
  {
    PairsPrefix(columns, lags, c + 1);
    PairsSnoc(columns, lags, c);
    var a := Pairs(columns[..c], lags);
    var r := Row(columns[c], lags);
    var u := a + Row(columns[c], lags[..j + 1]);
    var w := a + r;
    assert Row(columns[c], lags[..j + 1]) == r[..j + 1];
    assert w[..|u|] == a + r[..j + 1];
    assert IsPrefix(u, w);
    IsPrefixTrans(u, w, Pairs(columns, lags));
  }

  // The transform as written reads `self.type`, an attribute the model does not declare.

  /** `transform` as written: the first name it builds raises, so any pair at all is an error. */
  function TransformAsWritten(l: Lag, t: Table): Result<Table, LagError> {
    if l.columns != [] && l.lags != [] then Err(AttributeError)
    else Ok(Table(t.index, t.cols + []))
  }

  /** A one-column, one-lag request on a frame holding that column: as written it fails, as intended it adds the column. */
  lemma AsWrittenFails()
    ensures TransformAsWritten(Lag(["price"], [1], Day), Table([Num(1.0)], [Entry("price", [Num(1.0)])])) == Err(AttributeError)
    ensures Transform(Lag(["price"], [1], Day), Table([Num(1.0)], [Entry("price", [Num(1.0)])])).Ok?
  {
    var t := Table([Num(1.0)], [Entry("price", [Num(1.0)])]);
    var l := Lag(["price"], [1], Day);
    assert Get(t, "price") == Some([Num(1.0)]) by {
      FindIs(t.cols, "price", 0);
    }
    assert Pairs(l.columns, l.lags) == [("price", 1)] by {
      assert l.columns[..0] == [];
    }
    NewColumnsFails(t, [("price", 1)], Day);
  }

  /** Where there is nothing to lag, the written and the intended transform agree. */
  lemma AsWrittenAgreesWhenNothingToLag(l: Lag, t: Table)
    requires l.columns == [] || l.lags == []
    ensures TransformAsWritten(l, t) == Transform(l, t)
  {
    NothingToLag(l, t);
  }
}
