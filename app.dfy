/**
 * The main window's state and its handlers: the table, the current row, the
 * three input fields and the stock label. Widgets, layout and signal wiring
 * are not modelled; the data file is passed in and handed back as records.
 */
module App {
  import opened Wrappers
  import opened PyText
  import opened PyInt
  import opened Table

  class InventoryApp {
    /** The rows of the table widget, top to bottom. */
    var rows: seq<Row>
    /** `table.currentRow()`: the index of the current row, -1 when there is none. */
    var current: int
    /** The text of the three input fields. */
    var codeInput: string
    var colorInput: string
    var nameInput: string
    /** The text of the stock label. */
    var stockLabel: string

    /** The current row, when there is one, is a row of the table. */
    ghost predicate Valid()
      reads this
    {
      -1 <= current < |rows|
    }

    /** The window as `__init__` builds it, before it calls `load_data`. */
    constructor ()
      ensures Valid()
      ensures rows == [] && current == -1
      ensures codeInput == "" && colorInput == "" && nameInput == ""
      ensures stockLabel == StockLabel(0)
    {
      rows := [];
      current := -1;
      codeInput, colorInput, nameInput := "", "", "";
      stockLabel := "Stock: 0";
      assert Show(0) == "0";
    }

    /** The user makes row `row` current, or with -1 leaves no row current. */
    method SetCurrentRow(row: int)
      requires Valid() && -1 <= row < |rows|
      modifies this`current
      ensures Valid() && current == row
    {
      current := row;
    }

    /** The user types into the three input fields. */
    method TypeInputs(code: string, color: string, name: string)
      requires Valid()
      modifies this`codeInput, this`colorInput, this`nameInput
      ensures Valid()
      ensures codeInput == code && colorInput == color && nameInput == name
    {
      codeInput, colorInput, nameInput := code, color, name;
    }

    /** The three `clear()` calls of `submit_item`: every input field becomes empty. */
    method ClearInputs()
      requires Valid()
      modifies this`codeInput, this`colorInput, this`nameInput
      ensures Valid()
      ensures codeInput == "" && colorInput == "" && nameInput == ""
    {
      codeInput, colorInput, nameInput := "", "", "";
    }

    /** `add_row`: appends one row at the bottom; the rows above and the current row stay. */
    method AddRow(code: string, color: string, name: string, stock: int)
      requires Valid()
      modifies this`rows
      ensures Valid()
      ensures rows == old(rows) + [Row(code, color, name, stock)]
      ensures old(NonNegative(rows)) && stock >= 0 ==> NonNegative(rows)
    {
      rows := rows + [Row(code, color, name, stock)];
    }

    /** `get_selected_row`: the current row, or `None` when `currentRow()` is -1. */
    method GetSelectedRow() returns (selected: Option<nat>)
      requires Valid()
      ensures selected.None? <==> current == -1
      ensures selected.Some? ==> selected.value == current && selected.value < |rows|
    {
      if current == -1 {
        return None;
      }
      return Some(current);
    }

    /**
     * `save_data`: the records written to the data file, one per row in table
     * order, each the text of the row's four cells.
     */
    method Save() returns (file: seq<Record>)
      ensures file == Encode(rows)
    {
      file := [];
      var i := 0;
      while i < |rows|
        invariant 0 <= i <= |rows|
        invariant |file| == i
        invariant forall k :: 0 <= k < i ==> file[k] == RowRecord(rows[k])
      {
        var row := rows[i];
        file := file + [[row.code, row.color, row.name, Show(row.stock)]];
        i := i + 1;
      }
    }

    /**
     * `submit_item`: when the three inputs are non-blank, appends a row of
     * their stripped text with stock 0, clears the inputs and saves (`saved`
     * holds the records written). Otherwise nothing changes.
     */
    method SubmitItem() returns (saved: Option<seq<Record>>)
      requires Valid()
      modifies this`rows, this`codeInput, this`colorInput, this`nameInput
      ensures Valid()
      ensures saved.Some? <==>
        Strip(old(codeInput), StrSpace) != "" && Strip(old(colorInput), StrSpace) != "" && Strip(old(nameInput), StrSpace) != ""
      ensures saved.Some? ==>
        && rows == old(rows) + [Row(Strip(old(codeInput), StrSpace), Strip(old(colorInput), StrSpace), Strip(old(nameInput), StrSpace), 0)]
        && codeInput == "" && colorInput == "" && nameInput == ""
        && saved.value == Encode(rows)
      ensures saved.None? ==>
        && rows == old(rows)
        && codeInput == old(codeInput) && colorInput == old(colorInput) && nameInput == old(nameInput)
      ensures old(NonNegative(rows)) ==> NonNegative(rows)
    {
      var code := Strip(codeInput, StrSpace);
      var color := Strip(colorInput, StrSpace);
      var name := Strip(nameInput, StrSpace);
      if code != "" && color != "" && name != "" {
        AddRow(code, color, name, 0);
        ClearInputs();
        var file := Save();
        saved := Some(file);
      } else {
        saved := None;
      }
    }

    /**
     * `add_stock`: with a current row, adds one to its stock and shows the new
     * count in the label; with none, does nothing.
     */
    method AddStock()
      requires Valid()
      modifies this`rows, this`stockLabel
      ensures Valid()
      ensures current == -1 ==> rows == old(rows) && stockLabel == old(stockLabel)
      ensures current != -1 ==>
        rows == Incremented(old(rows), current) && stockLabel == StockLabel(rows[current].stock)
      ensures old(NonNegative(rows)) ==> NonNegative(rows)
    {
      var selected := GetSelectedRow();
      if selected.Some? {
        var row := selected.value;
        var stock := rows[row].stock;
        stock := stock + 1;
        rows := rows[row := rows[row].(stock := stock)];
        stockLabel := StockLabel(stock);
      }
    }

    /**
     * `reduce_stock`: with a current row whose stock is above 0, takes one
     * off and shows the new count in the label; otherwise does nothing.
     */
    method ReduceStock()
      requires Valid()
      modifies this`rows, this`stockLabel
      ensures Valid()
      ensures current == -1 ==> rows == old(rows) && stockLabel == old(stockLabel)
      ensures current != -1 ==> rows == Decremented(old(rows), current)
      ensures current != -1 && old(rows)[current].stock > 0 ==> stockLabel == StockLabel(rows[current].stock)
      ensures current != -1 && old(rows)[current].stock <= 0 ==> stockLabel == old(stockLabel)
      ensures old(NonNegative(rows)) ==> NonNegative(rows)
    {
      var selected := GetSelectedRow();
      if selected.Some? {
        var row := selected.value;
        var stock := rows[row].stock;
        if stock > 0 {
          stock := stock - 1;
          rows := rows[row := rows[row].(stock := stock)];
          stockLabel := StockLabel(stock);
        }
      }
    }

    /**
     * `load_data`: with no data file (`None`) nothing changes. Otherwise the
     * table is emptied and one row is appended per record, until a record
     * with fewer than four fields or a stock `int()` rejects, where Python
     * raises; `ok` is false in that case and the rows before it remain.
     */
    method Load(file: Option<seq<Record>>) returns (ok: bool)
      requires Valid()
      modifies this`rows, this`current
      ensures Valid()
      ensures file.None? ==> ok && rows == old(rows) && current == old(current)
      ensures file.Some? ==> rows == Decode(file.value) && current == -1
      ensures file.Some? ==> (ok <==> |rows| == |file.value|)
    {
      if file.None? {
        return true;
      }
      var recs := file.value;
      rows := [];
      current := -1;
      var i := 0;
      while i < |recs|
        invariant 0 <= i <= |recs| && |rows| == i && current == -1
        invariant forall k :: 0 <= k < i ==> ParseRecord(recs[k]) == Some(rows[k])
      {
        var rec := recs[i];
        if |rec| < 4 {
          DecodeUnique(recs, rows);
          return false;
        }
        var stock := Parse(rec[3]);
        if stock.None? {
          DecodeUnique(recs, rows);
          return false;
        }
        AddRow(rec[0], rec[1], rec[2], stock.value);
        i := i + 1;
      }
      DecodeUnique(recs, rows);
      ok := true;
    }
  }

  /**
   * Starting the application: the window's constructor followed by
   * `load_data`. `ok` false is the uncaught error that aborts start-up.
   */
  method Open(file: Option<seq<Record>>) returns (app: InventoryApp, ok: bool)
    ensures fresh(app) && app.Valid()
    ensures app.rows == (if file.None? then [] else Decode(file.value)) && app.current == -1
    ensures ok <==> file.None? || |app.rows| == |file.value|
    ensures app.codeInput == "" && app.colorInput == "" && app.nameInput == ""
    ensures app.stockLabel == StockLabel(0)
  {
    app := new InventoryApp();
    ok := app.Load(file);
  }

  /**
   * Saving, then starting the application again on the file written: the
   * new window shows the same rows, and loading succeeds.
   */
  method Reopen(app: InventoryApp) returns (copy: InventoryApp, ok: bool)
    requires app.Valid()
    ensures fresh(copy) && copy.Valid()
    ensures ok && copy.rows == app.rows && copy.current == -1
  {
    var file := app.Save();
    RoundTrip(app.rows);
    copy, ok := Open(Some(file));
  }

  /**
   * A session: submit ("P1", "Red", "GlossPaint"), make it current, add
   * stock twice, then save and reopen. The reopened table holds the one row
   * with stock 2.
   */
  method ExampleSession() returns (reopened: seq<Row>, shown: string)
    ensures reopened == [Row("P1", "Red", "GlossPaint", 2)]
    ensures shown == StockLabel(2)
  {
    var app, _ := Open(None);
    app.TypeInputs("P1", "Red", "GlossPaint");
    StripUnpadded("P1", StrSpace);
    StripUnpadded("Red", StrSpace);
    StripUnpadded("GlossPaint", StrSpace);
    var saved := app.SubmitItem();
    assert app.rows == [Row("P1", "Red", "GlossPaint", 0)];
    app.SetCurrentRow(0);
    app.AddStock();
    assert app.rows == [Row("P1", "Red", "GlossPaint", 1)];
    app.AddStock();
    assert app.rows == [Row("P1", "Red", "GlossPaint", 2)];
    shown := app.stockLabel;
    assert shown == StockLabel(2);
    var copy, _ := Reopen(app);
    reopened := copy.rows;
    assert reopened == app.rows;
  }
}
