/**
 * Column-oriented data frames: an index and an insertion-ordered list of
 * named columns, each with one value per index entry.  `data[name] = values`
 * replaces a column where it stands or appends a new one.
 */
module Frame {
  import opened Wrappers
  import opened OrderedDict

  datatype Value = Num(x: real) | Str(s: string) | Time(t: int) | Missing

  datatype Table = Table(index: seq<Value>, cols: Dict<seq<Value>>)

  predicate WellFormed(t: Table) {
    forall i :: 0 <= i < |t.cols| ==> |t.cols[i].value| == |t.index|
  }

  function Names(t: Table): seq<string> {
    Keys(t.cols)
  }

  function Get(t: Table, name: string): Option<seq<Value>> {
    Lookup(t.cols, name)
  }

  function Set(t: Table, name: string, values: seq<Value>): Table {
    t.(cols := Put(t.cols, name, values))
  }

  /** A column of a well-formed table has one value per index entry. */
  lemma GetWellFormed(t: Table, name: string)
    requires WellFormed(t) && Get(t, name).Some?
    ensures |Get(t, name).value| == |t.index|
  {
    var i := Find(t.cols, name);
    assert Get(t, name).value == t.cols[i].value;
  }

  /** Assigning a column: it reads the new values, every other column is unchanged, the index is kept. */
  lemma SetEffect(t: Table, name: string, values: seq<Value>)
    ensures Set(t, name, values).index == t.index
    ensures Get(Set(t, name, values), name) == Some(values)
    ensures forall n :: n != name ==> Get(Set(t, name, values), n) == Get(t, n)
    ensures Names(Set(t, name, values)) == if name in Names(t) then Names(t) else Names(t) + [name]
    ensures WellFormed(t) && |values| == |t.index| ==> WellFormed(Set(t, name, values))
  {
    PutLookup(t.cols, name, values);
    PutKeys(t.cols, name, values);
  }

  lemma SetGet(t: Table, name: string, values: seq<Value>, n: string)
    ensures Set(t, name, values).index == t.index
    ensures Get(Set(t, name, values), n) == if n == name then Some(values) else Get(t, n)
  {
    PutLookup(t.cols, name, values);
  }

  /** Removes every column called `name`. */
  function Drop(cols: Dict<seq<Value>>, name: string): (r: Dict<seq<Value>>)
    ensures forall e :: e in r <==> e in cols && e.key != name
  {
    if cols == [] then []
    else if cols[0].key == name then Drop(cols[1..], name)
    else [cols[0]] + Drop(cols[1..], name)
  }

  /** Dropping a column leaves every other column readable as before. */
  lemma {:induction false} DropLookup(cols: Dict<seq<Value>>, name: string, k: string)
    requires k != name
    ensures Lookup(Drop(cols, name), k) == Lookup(cols, k)
  {
    if cols != [] {
      DropLookup(cols[1..], name, k);
      LookupCons(cols, k);
      var rest := Drop(cols[1..], name);
      if cols[0].key != name {
        var r := [cols[0]] + rest;
        assert Drop(cols, name) == r;
        assert r[1..] == rest;
        LookupCons(r, k);
      }
    }
  }

  /** How `(frame[col] == k).astype(int)` and the like encode a condition. */
  function Indicator(b: bool): Value {
    if b then Num(1.0) else Num(0.0)
  }

  /** Assigning the given columns one after another, as a loop of `frame[name] = values` does. */
  function WithColumns(t: Table, updates: seq<(string, seq<Value>)>): Table {
    if updates == [] then t
    else
      var n := |updates| - 1;
      Set(WithColumns(t, updates[..n]), updates[n].0, updates[n].1)
  }

  /** A name reads the values of the last assignment to it. */
  lemma {:induction false} WithColumnsLast(t: Table, updates: seq<(string, seq<Value>)>, j: nat)
    requires j < |updates|
    requires forall k :: j < k < |updates| ==> updates[k].0 != updates[j].0
    ensures Get(WithColumns(t, updates), updates[j].0) == Some(updates[j].1)
  {
    var n := |updates| - 1;
    SetGet(WithColumns(t, updates[..n]), updates[n].0, updates[n].1, updates[j].0);
    if j < n {
      assert updates[..n][j] == updates[j];
      WithColumnsLast(t, updates[..n], j);
    }
  }

  /** A name nothing is updates to keeps its column, and the index is kept. */
  lemma {:induction false} WithColumnsOther(t: Table, updates: seq<(string, seq<Value>)>, name: string)
    requires forall k :: 0 <= k < |updates| ==> updates[k].0 != name
    ensures WithColumns(t, updates).index == t.index
    ensures Get(WithColumns(t, updates), name) == Get(t, name)
  {
    if updates != [] {
      var n := |updates| - 1;
      WithColumnsOther(t, updates[..n], name);
      SetGet(WithColumns(t, updates[..n]), updates[n].0, updates[n].1, name);
    }
  }

  /** Assigning columns of the right height keeps a table well formed. */
  lemma {:induction false} WithColumnsWellFormed(t: Table, updates: seq<(string, seq<Value>)>)
    requires WellFormed(t)
    requires forall k :: 0 <= k < |updates| ==> |updates[k].1| == |t.index|
    ensures WithColumns(t, updates).index == t.index
    ensures WellFormed(WithColumns(t, updates))
  {
    if updates != [] {
      var n := |updates| - 1;
      WithColumnsWellFormed(t, updates[..n]);
      SetEffect(WithColumns(t, updates[..n]), updates[n].0, updates[n].1);
    }
  }

  /** A data frame updated in place. */
  class DataFrame {
    var index: seq<Value>
    var cols: Dict<seq<Value>>

    function Snapshot(): Table
      reads this
    {
      Table(index, cols)
    }

    constructor (t: Table)
      ensures Snapshot() == t
    {
      index := t.index;
      cols := t.cols;
    }

    /** `frame[name] = values`. */
    method Assign(name: string, values: seq<Value>)
      modifies this
      ensures Snapshot() == Set(old(Snapshot()), name, values)
    {
      cols := Put(cols, name, values);
    }

    /** A loop of column assignments. */
    method AssignAll(updates: seq<(string, seq<Value>)>)
      modifies this
      ensures Snapshot() == WithColumns(old(Snapshot()), updates)
    {
      ghost var t0 := Snapshot();
      for i := 0 to |updates|
        invariant Snapshot() == WithColumns(t0, updates[..i])
      {
        assert updates[..i + 1][..i] == updates[..i];
        Assign(updates[i].0, updates[i].1);
      }
      assert updates[..|updates|] == updates;
    }

    /** `frame.set_index(name, inplace=True)`: the column becomes the index; a missing column is a key error. */
    method SetIndex(name: string) returns (ok: bool)
      modifies this
      ensures ok == old(Get(Snapshot(), name)).Some?
      ensures ok ==> Snapshot() == Table(old(Get(Snapshot(), name)).value, Drop(old(cols), name))
      ensures !ok ==> Snapshot() == old(Snapshot())
    {
      var c := Lookup(cols, name);
      if c.None? {
        return false;
      }
      index := c.value;
      cols := Drop(cols, name);
      ok := true;
    }
  }
}
