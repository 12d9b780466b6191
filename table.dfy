/**
 * The inventory table as a value: its rows, the data-file records they are
 * saved as and read back from, and the row updates the stock buttons make.
 * The class in module App changes its state only through these definitions.
 */
module Table {
  import opened Wrappers
  import opened PyInt

  /**
   * One row of the table: the text of the cells Product Code, Color and Name,
   * and the stock count. The Stock cell holds the text `Show(stock)`: every
   * write to it is `str()` of an integer, and every read is `int()` of that
   * text, which gives the integer back (PyInt.ParseShow).
   */
  datatype Row = Row(code: string, color: string, name: string, stock: int)

  /** One line of the data file, as a list of fields (the csv layer is not modelled). */
  type Record = seq<string>

  /** No row holds a negative stock count. */
  predicate NonNegative(rows: seq<Row>) {
    forall i :: 0 <= i < |rows| ==> rows[i].stock >= 0
  }

  /** What "Add Stock (+)" does to the table when row `i` is selected. */
  function Incremented(rows: seq<Row>, i: nat): (r: seq<Row>)
    requires i < |rows|
    ensures |r| == |rows|
    ensures forall j :: 0 <= j < |rows| && j != i ==> r[j] == rows[j]
    ensures r[i].code == rows[i].code && r[i].color == rows[i].color && r[i].name == rows[i].name
    ensures r[i].stock == rows[i].stock + 1
    ensures NonNegative(rows) ==> NonNegative(r)
  {
    rows[i := rows[i].(stock := rows[i].stock + 1)]
  }

  /** What "Reduce Stock (-)" does to the table when row `i` is selected: nothing at stock 0 or below. */
  function Decremented(rows: seq<Row>, i: nat): (r: seq<Row>)
    requires i < |rows|
    ensures |r| == |rows|
    ensures forall j :: 0 <= j < |rows| && j != i ==> r[j] == rows[j]
    ensures r[i].code == rows[i].code && r[i].color == rows[i].color && r[i].name == rows[i].name
    ensures rows[i].stock > 0 ==> r[i].stock == rows[i].stock - 1
    ensures rows[i].stock <= 0 ==> r == rows
    ensures r[i].stock >= 0 <==> rows[i].stock >= 0
    ensures NonNegative(rows) ==> NonNegative(r)
  {
    if rows[i].stock > 0 then rows[i := rows[i].(stock := rows[i].stock - 1)] else rows
  }

  /** Increment then decrement of the same row restores the table, whenever its stock is not negative. */
  lemma DecrementUndoesIncrement(rows: seq<Row>, i: nat)
    requires i < |rows| && rows[i].stock >= 0
    ensures Decremented(Incremented(rows, i), i) == rows
  {
  }

  /** Decrement then increment restores the table when the stock was positive. */
  lemma IncrementUndoesDecrement(rows: seq<Row>, i: nat)
    requires i < |rows| && rows[i].stock > 0
    ensures Incremented(Decremented(rows, i), i) == rows
  {
  }

  /**
   * A negative stock (possible only from a data file edited by hand) is not
   * restored: the decrement after the increment finds a stock of at most 0
   * and does nothing.
   */
  lemma IncrementSticksBelowZero(rows: seq<Row>, i: nat)
    requires i < |rows| && rows[i].stock < 0
    ensures Decremented(Incremented(rows, i), i) == Incremented(rows, i) != rows
  {
  }

  /** The text of the "Stock: n" label (an f-string formats `n` as `str(n)` does). */
  function StockLabel(n: int): string {
    "Stock: " + Show(n)
  }

  /** The label shows the count: after its fixed prefix comes text that `int()` reads back as `n`. */
  lemma StockLabelShows(n: int)
    ensures |StockLabel(n)| > 7 && StockLabel(n)[..7] == "Stock: "
    ensures Parse(StockLabel(n)[7..]) == Some(n)
  {
    ParseShow(n);
    assert StockLabel(n)[7..] == Show(n);
  }

  /** The fields `save_data` writes for one row: the text of its four cells. */
  function RowRecord(r: Row): Record {
    [r.code, r.color, r.name, Show(r.stock)]
  }

  /** The data file `save_data` writes: one four-field record per row, in table order. */
  function Encode(rows: seq<Row>): (recs: seq<Record>)
    ensures |recs| == |rows|
    ensures forall i :: 0 <= i < |rows| ==> |recs[i]| == 4 && recs[i] == RowRecord(rows[i])
  {
    if rows == [] then [] else Encode(rows[..|rows| - 1]) + [RowRecord(rows[|rows| - 1])]
  }

  /**
   * What `load_data` makes of one record: the row `add_row(rec[0], rec[1],
   * rec[2], int(rec[3]))` appends, or `None` where that raises (fewer than
   * four fields, or a fourth field `int()` rejects). Further fields are ignored.
   */
  function ParseRecord(rec: Record): (r: Option<Row>)
    ensures r.Some? <==> |rec| >= 4 && Parse(rec[3]).Some?
    ensures r.Some? ==> r.value == Row(rec[0], rec[1], rec[2], Parse(rec[3]).value)
  {
    if |rec| < 4 then None
    else match Parse(rec[3])
      case None => None
      case Some(n) => Some(Row(rec[0], rec[1], rec[2], n))
  }

  /**
   * What a loader that stops at the first record `parse` rejects produces:
   * the parsed records before that one.
   */
  function ParsePrefix<T>(parse: Record -> Option<T>, recs: seq<Record>): (out: seq<T>)
    ensures |out| <= |recs|
    ensures forall i :: 0 <= i < |out| ==> parse(recs[i]) == Some(out[i])
    ensures |out| < |recs| ==> parse(recs[|out|]).None?
  {
    if recs == [] then []
    else match parse(recs[0])
      case None => []
      case Some(r) =>
        var rest := ParsePrefix(parse, recs[1..]);
        assert forall i :: 0 <= i < |rest| ==> parse(recs[i + 1]) == Some(rest[i]);
        [r] + rest
  }

  /** The conditions `ParsePrefix` ensures determine its result. */
  lemma ParsePrefixUnique<T>(parse: Record -> Option<T>, recs: seq<Record>, out: seq<T>)
    requires |out| <= |recs|
    requires forall i :: 0 <= i < |out| ==> parse(recs[i]) == Some(out[i])
    requires |out| < |recs| ==> parse(recs[|out|]).None?
    ensures ParsePrefix(parse, recs) == out
  {
  }

  /**
   * The rows `load_data` adds from the records of a data file: those before
   * the first malformed record, where loading stops with an uncaught error.
   */
  function Decode(recs: seq<Record>): (rows: seq<Row>)
    ensures |rows| <= |recs|
    ensures forall i :: 0 <= i < |rows| ==> ParseRecord(recs[i]) == Some(rows[i])
    ensures |rows| < |recs| ==> ParseRecord(recs[|rows|]).None?
  {
    ParsePrefix(ParseRecord, recs)
  }

  /** The conditions `Decode` ensures determine its result. */
  lemma DecodeUnique(recs: seq<Record>, rows: seq<Row>)
    requires |rows| <= |recs|
    requires forall i :: 0 <= i < |rows| ==> ParseRecord(recs[i]) == Some(rows[i])
    requires |rows| < |recs| ==> ParseRecord(recs[|rows|]).None?
    ensures Decode(recs) == rows
  {
  }

  /** Every record of the file is loaded exactly when none is malformed. */
  lemma DecodeComplete(recs: seq<Record>)
    ensures |Decode(recs)| == |recs| <==> forall i :: 0 <= i < |recs| ==> ParseRecord(recs[i]).Some?
  {
  }

  /** The record saved for a row is read back as that row. */
  lemma RowRecordReadsBack(r: Row)
    ensures ParseRecord(RowRecord(r)) == Some(r)
  {
    ParseShow(r.stock);
  }

  /** Loading what `save_data` wrote gives back the same table, field for field. */
  lemma RoundTrip(rows: seq<Row>)
    ensures Decode(Encode(rows)) == rows
  {
    var recs := Encode(rows);
    forall i | 0 <= i < |rows| ensures ParseRecord(recs[i]) == Some(rows[i]) {
      RowRecordReadsBack(rows[i]);
    }
    DecodeUnique(recs, rows);
  }
}
