/**
 * The part of a pandas DataFrame that the prediction path relies on: named columns in a
 * fixed order, reading a column by name, assigning a column in place, dropping a column
 * into a new frame, and copying a frame.
 */
module Frames {
  import opened Wrappers
  import opened Exceptions
  import opened Lists

  /**
   * One cell. `Cat` is an entry of an ordered categorical: `code` is the label's position
   * in `categories`, and -1 stands for a missing value (NaN).
   */
  datatype Cell =
    | IntCell(i: int)
    | Num(r: real)
    | Text(s: string)
    | Cat(code: int, categories: seq<string>)

  datatype Column = Column(name: string, cells: seq<Cell>)

  /** The columns of a frame, left to right. */
  type Table = seq<Column>

  function Names(t: Table): (ns: seq<string>)
    ensures |ns| == |t| && forall i :: 0 <= i < |t| ==> ns[i] == t[i].name
  {
    seq(|t|, i requires 0 <= i < |t| => t[i].name)
  }

  lemma NamesCons(t: Table)
    requires |t| > 0
    ensures Names(t) == [t[0].name] + Names(t[1..])
  {
    assert forall i :: 0 <= i < |t| ==> Names(t)[i] == ([t[0].name] + Names(t[1..]))[i];
  }

  /** `df[name]`: the cells of the leftmost column so named, or a KeyError when there is none. */
  function Lookup(t: Table, name: string): (r: Result<seq<Cell>, Error>)
    ensures r.Failure? <==> name !in Names(t)
    ensures r.Failure? ==> r.error == KeyError(name)
    ensures r.Success? ==> exists k :: 0 <= k < |t| && t[k] == Column(name, r.value)
    decreases |t|
  {
    if |t| == 0 then Failure(KeyError(name))
    else if t[0].name == name then Success(t[0].cells)
    else
      var r := Lookup(t[1..], name);
      assert r.Success? ==> exists k :: 0 <= k < |t[1..]| && t[1..][k] == Column(name, r.value);
      r
  }

  /**
   * `df[name] = cells`: an existing column keeps its place and gets the new cells; a new
   * column is appended on the right. No other column changes.
   */
  function SetColumn(t: Table, name: string, cells: seq<Cell>): Table
    decreases |t|
  {
    if |t| == 0 then [Column(name, cells)]
    else if t[0].name == name then [Column(name, cells)] + t[1..]
    else [t[0]] + SetColumn(t[1..], name, cells)
  }

  /** The assigned column reads back as the new cells. */
  lemma {:induction false} SetColumnReadsBack(t: Table, name: string, cells: seq<Cell>)
    ensures Lookup(SetColumn(t, name, cells), name) == Success(cells)
  {
    if |t| > 0 && t[0].name != name {
      var r := SetColumn(t, name, cells);
      assert r[1..] == SetColumn(t[1..], name, cells);
      SetColumnReadsBack(t[1..], name, cells);
    }
  }

  /** The column order is kept, and a new name goes to the right end. */
  lemma {:induction false} SetColumnNames(t: Table, name: string, cells: seq<Cell>)
    ensures name in Names(t) ==> Names(SetColumn(t, name, cells)) == Names(t)
    ensures name !in Names(t) ==> Names(SetColumn(t, name, cells)) == Names(t) + [name]
  {
    if |t| > 0 {
      var r := SetColumn(t, name, cells);
      NamesCons(t);
      NamesCons(r);
      if t[0].name == name {
        assert r[1..] == t[1..];
      } else {
        assert r[1..] == SetColumn(t[1..], name, cells);
        SetColumnNames(t[1..], name, cells);
      }
    }
  }

  /** Assigning one column leaves every other column reading as before. */
  lemma {:induction false} SetColumnKeepsOthers(t: Table, name: string, cells: seq<Cell>, other: string)
    requires other != name
    ensures Lookup(SetColumn(t, name, cells), other) == Lookup(t, other)
  {
    if |t| > 0 && t[0].name != name {
      var r := SetColumn(t, name, cells);
      assert r[1..] == SetColumn(t[1..], name, cells);
      SetColumnKeepsOthers(t[1..], name, cells, other);
    }
  }

  /** The columns of `t` whose name is not `name`, in their order. */
  function Without(t: Table, name: string): (r: Table)
    ensures name !in Names(r)
    ensures forall other :: other != name ==> Lookup(r, other) == Lookup(t, other)
    decreases |t|
  {
    if |t| == 0 then []
    else if t[0].name == name then Without(t[1..], name)
    else
      var r := [t[0]] + Without(t[1..], name);
      assert r[1..] == Without(t[1..], name);
      r
  }

  /** When no two columns share a name, every column is what its name looks up. */
  lemma {:induction false} LookupUnique(t: Table, k: int)
    requires Distinct(Names(t))
    requires 0 <= k < |t|
    ensures Lookup(t, t[k].name) == Success(t[k].cells)
  {
    if k > 0 {
      assert Names(t[1..]) == Names(t)[1..];
      assert t[0].name != t[k].name by { assert Names(t)[0] != Names(t)[k]; }
      LookupUnique(t[1..], k - 1);
    }
  }

  /**
   * Assigning an existing column replaces it where it stands, provided no column to its
   * left has the same name (so in particular in a frame with distinct names).
   */
  lemma {:induction false} SetColumnAt(t: Table, k: int, cells: seq<Cell>)
    requires 0 <= k < |t|
    requires forall j :: 0 <= j < k ==> t[j].name != t[k].name
    ensures SetColumn(t, t[k].name, cells) == t[k := Column(t[k].name, cells)]
  {
    var c := Column(t[k].name, cells);
    if k == 0 {
      assert t[0 := c] == [c] + t[1..];
    } else {
      assert t[0].name != t[k].name;
      assert SetColumn(t, t[k].name, cells) == [t[0]] + SetColumn(t[1..], t[k].name, cells);
      assert t[1..][k - 1] == t[k];
      SetColumnAt(t[1..], k - 1, cells);
      assert t[k := c] == [t[0]] + t[1..][k - 1 := c];
    }
  }

  /** Replacing a column by one of the same name keeps the names. */
  lemma NamesUpdate(t: Table, k: int, c: Column)
    requires 0 <= k < |t| && c.name == t[k].name
    ensures Names(t[k := c]) == Names(t)
  {
    var u := t[k := c];
    assert forall i :: 0 <= i < |t| ==> Names(u)[i] == Names(t)[i];
  }

  /** With distinct names, no column left of the k-th shares its name. */
  lemma DistinctNamesBefore(t: Table, k: int)
    requires Distinct(Names(t)) && 0 <= k < |t|
    ensures forall j :: 0 <= j < k ==> t[j].name != t[k].name
  {
    forall j | 0 <= j < k
      ensures t[j].name != t[k].name
    {
      assert Names(t)[j] != Names(t)[k];
    }
  }

  /** Removing a column of a frame with distinct names leaves the others in their order. */
  lemma {:induction false} WithoutAt(t: Table, k: int)
    requires Distinct(Names(t))
    requires 0 <= k < |t|
    ensures Without(t, t[k].name) == t[..k] + t[k + 1..]
  {
    var name := t[k].name;
    DistinctNamesTail(t);
    if k > 0 {
      assert t[0].name != name by { assert Names(t)[0] != Names(t)[k]; }
      WithoutAt(t[1..], k - 1);
      assert t[..k] == [t[0]] + t[1..][..k - 1];
      assert t[k + 1..] == t[1..][k..];
    } else {
      WithoutAbsent(t[1..], name);
    }
  }

  lemma DistinctNamesTail(t: Table)
    requires Distinct(Names(t)) && |t| > 0
    ensures Distinct(Names(t[1..])) && t[0].name !in Names(t[1..])
  {
    assert Names(t[1..]) == Names(t)[1..];
    DistinctTail(Names(t));
  }

  /** Removing a name that does not occur changes nothing. */
  lemma {:induction false} WithoutAbsent(t: Table, name: string)
    requires name !in Names(t)
    ensures Without(t, name) == t
  {
    if |t| > 0 {
      assert Names(t)[0] == t[0].name;
      assert Names(t[1..]) == Names(t)[1..];
      WithoutAbsent(t[1..], name);
    }
  }

  /** The argument of the KeyError that `df.drop(columns=name)` raises for an absent column. */
  function NotFoundInAxis(name: string): string {
    "['" + name + "'] not found in axis"
  }

  /** `df.drop(columns=name)`: a new frame without that column, or a KeyError when it is absent. */
  function DropColumn(t: Table, name: string): (r: Result<Table, Error>)
    ensures r.Failure? <==> name !in Names(t)
    ensures r.Failure? ==> r.error == KeyError(NotFoundInAxis(name))
    ensures r.Success? ==>
      && name !in Names(r.value)
      && forall other :: other != name ==> Lookup(r.value, other) == Lookup(t, other)
  {
    if name !in Names(t) then Failure(KeyError(NotFoundInAxis(name))) else Success(Without(t, name))
  }

  /** A DataFrame object: callers that hold the same reference see each other's updates. */
  class DataFrame {
    var columns: Table

    constructor (columns: Table)
      ensures this.columns == columns
    {
      this.columns := columns;
    }

    /** `df[name] = cells`, in place. */
    method SetItem(name: string, cells: seq<Cell>)
      modifies this
      ensures columns == SetColumn(old(columns), name, cells)
    {
      columns := SetColumn(columns, name, cells);
    }

    /** `df.drop(columns=name)`: leaves this frame as it is and returns a new one. */
    method Drop(name: string) returns (r: Result<DataFrame, Error>)
      ensures DropColumn(columns, name).Failure? ==> r == Failure(DropColumn(columns, name).error)
      ensures DropColumn(columns, name).Success? ==>
        r.Success? && fresh(r.value) && r.value.columns == DropColumn(columns, name).value
    {
      var dropped := DropColumn(columns, name);
      if dropped.Failure? {
        return Failure(dropped.error);
      }
      var frame := new DataFrame(dropped.value);
      return Success(frame);
    }

    /** `df.copy()`: a new frame with the same columns. */
    method Copy() returns (c: DataFrame)
      ensures fresh(c) && c.columns == columns
    {
      c := new DataFrame(columns);
    }
  }
}
