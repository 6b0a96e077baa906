/**
 * The text table the web views print: rows of an amount and a text,
 * listed largest amount first and, among equal amounts, by text.
 */
module StatsTables {
  import opened JavaInts
  import opened JavaStrings
  import opened Sorting

  /** A row; the row setters are never called, so a row is a value. */
  datatype Row = Row(amount: int32, text: string)

  /** `Integer.compare`: the sign of `x - y`. */
  function IntegerCompare(x: int32, y: int32): (r: int)
    ensures r == -1 <==> x < y
    ensures r == 0 <==> x == y
    ensures r == 1 <==> x > y
  {
    if x < y then -1 else if x == y then 0 else 1
  }

  /** `StatsTableRow.compareTo`. */
  function RowCompare(a: Row, b: Row): (r: int)
    ensures a.amount > b.amount ==> r < 0
    ensures a.amount < b.amount ==> r > 0
  {
    if a.amount == b.amount then Compare(a.text, b.text)
    else IntegerCompare(a.amount, b.amount) * -1
  }

  /** Rows of equal amounts are ordered as their texts are by `String.compareTo`. */
  lemma RowCompareEqualAmounts(a: Row, b: Row)
    requires a.amount == b.amount
    ensures RowCompare(a, b) == Compare(a.text, b.text)
    ensures RowCompare(a, b) == 0 <==> a == b
  {
    CompareZeroIffEqual(a.text, b.text);
  }

  /** `compareTo` is antisymmetric. */
  lemma RowCompareAntisymmetric(a: Row, b: Row)
    ensures RowCompare(a, b) == -RowCompare(b, a)
  {
    CompareAntisymmetric(a.text, b.text);
  }

  /** The order `sort(null)` puts the rows in. */
  predicate RowLe(a: Row, b: Row)
  {
    RowCompare(a, b) <= 0
  }

  lemma RowLeTotalPreorder(dom: set<Row>)
    ensures TotalPreorder(dom, RowLe)
  {
    forall a, b | a in dom && b in dom ensures RowLe(a, b) || RowLe(b, a) {
      RowCompareAntisymmetric(a, b);
    }
    forall a, b, c | a in dom && b in dom && c in dom && RowLe(a, b) && RowLe(b, c)
      ensures RowLe(a, c)
    {
      if a.amount == b.amount == c.amount {
        CompareTransitive(a.text, b.text, c.text);
      }
    }
  }

  /** Sorted rows list their amounts from largest to smallest. */
  lemma SortedRowsByAmount(rows: seq<Row>)
    requires Sorted(rows, RowLe)
    ensures forall i, j :: 0 <= i < j < |rows| ==> rows[i].amount >= rows[j].amount
  {
    forall i, j | 0 <= i < j < |rows| ensures rows[i].amount >= rows[j].amount {
      assert RowLe(rows[i], rows[j]);
    }
  }

  /**
   * The row texts, one after the other; amounts are not printed. A single
   * row prints exactly its text, and no row's text is longer than the whole.
   */
  function Texts(rows: seq<Row>): (r: string)
    ensures |rows| == 0 ==> r == []
    ensures |rows| == 1 ==> r == rows[0].text
    ensures forall i :: 0 <= i < |rows| ==> |rows[i].text| <= |r|
  {
    if rows == [] then [] else Texts(rows[..|rows| - 1]) + rows[|rows| - 1].text
  }

  /** Printing two runs of rows prints the first run's texts, then the second's. */
  lemma {:induction false} TextsAppend(a: seq<Row>, b: seq<Row>)
    ensures Texts(a + b) == Texts(a) + Texts(b)
    decreases |b|
  {
    if b == [] {
      assert a + b == a;
    } else {
      assert (a + b)[..|a + b| - 1] == a + b[..|b| - 1];
      TextsAppend(a, b[..|b| - 1]);
    }
  }

  /** The printed text is as long as all row texts together. */
  lemma {:induction false} TextsLength(rows: seq<Row>)
    ensures |Texts(rows)| == TextLengths(rows)
    decreases |rows|
  {
    if rows != [] {
      TextsLength(rows[..|rows| - 1]);
    }
  }

  function TextLengths(rows: seq<Row>): nat
  {
    if rows == [] then 0 else TextLengths(rows[..|rows| - 1]) + |rows[|rows| - 1].text|
  }

  /** `StatsTable`: an `ArrayList` of rows. */
  class StatsTable {
    var rows: seq<Row>

    constructor ()
      ensures rows == []
    {
      rows := [];
    }

    /** `add(amount, text)`: one new row at the end. */
    method Add(amount: int32, text: string)
      modifies this
      ensures rows == old(rows) + [Row(amount, text)]
    {
      rows := rows + [Row(amount, text)];
    }

    /**
     * `printSorted`: sorts the rows in place, then returns their texts
     * in the new order.
     */
    method PrintSorted() returns (result: string)
      modifies this
      ensures multiset(rows) == multiset(old(rows))
      ensures Sorted(rows, RowLe)
      ensures result == Texts(rows)
    {
      RowLeTotalPreorder((set r | r in rows));
      SortBySorted((set r | r in rows), rows, RowLe);
      rows := SortBy(rows, RowLe);
      result := ConcatTexts(rows);
    }
  }

  /** The `StringBuilder` loop of `printSorted`. */
  method ConcatTexts(rows: seq<Row>) returns (sb: string)
    ensures sb == Texts(rows)
  {
    sb := [];
    var i := 0;
    while i < |rows|
      invariant 0 <= i <= |rows|
      invariant sb == Texts(rows[..i])
    {
      assert rows[..i + 1][..i] == rows[..i];
      sb := sb + rows[i].text;
      i := i + 1;
    }
    assert rows[..i] == rows;
  }
}
