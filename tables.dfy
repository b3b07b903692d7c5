/** A parsed dataset as the handlers see it: pandas' DataFrame reduced to its
    column names, whether each column's inferred dtype is numeric, and its rows. */
module Tables {
  import opened Sequences

  datatype Column = Column(name: string, numeric: bool)

  /** One data row, as the cells' text. */
  type Row = seq<string>

  datatype Table = Table(columns: seq<Column>, rows: seq<Row>)

  /** Number of rows shown by `df.head(10)` (app.py:80). */
  const PreviewRows: nat := 10

  function Name(c: Column): string { c.name }

  predicate IsNumeric(c: Column) { c.numeric }

  function Names(columns: seq<Column>): seq<string> {
    Apply(columns, Name)
  }

  /** `df.columns.tolist()` (app.py:87): one name per column, in column order. */
  function ColumnNames(t: Table): (names: seq<string>)
    ensures |names| == |t.columns|
    ensures forall i :: 0 <= i < |t.columns| ==> names[i] == t.columns[i].name
  {
    Names(t.columns)
  }

  /** `get_numeric_columns` (app.py:27-28): the names of the numeric columns,
      every one of them and no other, in table order. The last two clauses fix
      the result even when names repeat: entry k is the name of the k-th
      numeric column, counting from the left. */
  function NumericColumns(t: Table): (r: seq<string>)
    ensures IsSubsequence(r, ColumnNames(t))
    ensures forall i :: 0 <= i < |t.columns| && t.columns[i].numeric ==> t.columns[i].name in r
    ensures forall n :: n in r ==>
              exists i :: 0 <= i < |t.columns| && t.columns[i].numeric && t.columns[i].name == n
    ensures |r| == |Positions(t.columns, IsNumeric)|
    ensures forall k :: 0 <= k < |r| ==> r[k] == t.columns[Positions(t.columns, IsNumeric)[k]].name
  {
    var kept := Filter(t.columns, IsNumeric);
    NamesOfNumeric(t.columns, kept);
    FilterAtPositions(t.columns, IsNumeric);
    Names(kept)
  }

  lemma NamesOfNumeric(columns: seq<Column>, kept: seq<Column>)
    requires kept == Filter(columns, IsNumeric)
    ensures IsSubsequence(Names(kept), Names(columns))
    ensures forall i :: 0 <= i < |columns| && columns[i].numeric ==> columns[i].name in Names(kept)
    ensures forall n :: n in Names(kept) ==>
              exists i :: 0 <= i < |columns| && columns[i].numeric && columns[i].name == n
  {
    SubsequenceApply(kept, columns, Name);
    forall i | 0 <= i < |columns| && columns[i].numeric
      ensures columns[i].name in Names(kept)
    {
      assert columns[i] in columns && IsNumeric(columns[i]);
      NumericNameListed(columns, kept, i);
    }
    forall n | n in Names(kept)
      ensures exists i :: 0 <= i < |columns| && columns[i].numeric && columns[i].name == n
    {
      ListedNameNumeric(columns, kept, n);
    }
  }

  lemma NumericNameListed(columns: seq<Column>, kept: seq<Column>, i: nat)
    requires i < |columns| && columns[i].numeric && columns[i] in kept
    ensures columns[i].name in Names(kept)
  {
    var j :| 0 <= j < |kept| && kept[j] == columns[i];
    assert Names(kept)[j] == columns[i].name;
  }

  lemma ListedNameNumeric(columns: seq<Column>, kept: seq<Column>, n: string)
    requires forall c :: c in kept ==> c in columns && c.numeric
    requires n in Names(kept)
    ensures exists i :: 0 <= i < |columns| && columns[i].numeric && columns[i].name == n
  {
    var j :| 0 <= j < |kept| && Names(kept)[j] == n;
    assert kept[j] in kept;
    var i :| 0 <= i < |columns| && columns[i] == kept[j];
    assert columns[i].numeric && columns[i].name == n;
  }

  /** `df.head(10)` (app.py:80): the first rows, at most ten, in order. */
  function Preview(t: Table): (p: seq<Row>)
    ensures |p| <= PreviewRows && |p| <= |t.rows|
    ensures |p| == |t.rows| || |p| == PreviewRows
    ensures p == t.rows[..|p|]
  {
    if |t.rows| <= PreviewRows then t.rows else t.rows[..PreviewRows]
  }

  /** When every column is numeric, all of them are listed; when none is,
      the list is empty. */
  lemma NumericColumnsExtremes(t: Table)
    ensures (forall i :: 0 <= i < |t.columns| ==> t.columns[i].numeric) ==> NumericColumns(t) == ColumnNames(t)
    ensures (forall i :: 0 <= i < |t.columns| ==> !t.columns[i].numeric) ==> NumericColumns(t) == []
  {
    if forall i :: 0 <= i < |t.columns| ==> t.columns[i].numeric {
      FilterKeepsAll(t.columns, IsNumeric);
    }
  }

  /** With a repeated name, the entries still follow the numeric columns from
      left to right: `b` comes before the second, numeric `a`. */
  lemma NumericColumnsRepeatedName(t: Table)
    requires t.columns == [Column("a", false), Column("b", true), Column("a", true)]
    ensures NumericColumns(t) == ["b", "a"]
  {
    RepeatedNamePositions(t.columns);
    var r := NumericColumns(t);
    assert |r| == 2 && r[0] == t.columns[1].name && r[1] == t.columns[2].name;
  }

  lemma RepeatedNamePositions(columns: seq<Column>)
    requires columns == [Column("a", false), Column("b", true), Column("a", true)]
    ensures Positions(columns, IsNumeric) == [1, 2]
  {
    assert columns[..1][..0] == [];
    assert Positions(columns[..1], IsNumeric) == [];
    assert columns[..2][..1] == columns[..1];
    assert Positions(columns[..2], IsNumeric) == [1];
    assert columns[..2] == columns[..|columns| - 1];
  }
}
