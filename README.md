# Paint inventory stock table — a Dafny model

The application is a single window for tracking paint products. Its state is
a table of rows (product code, color, name, stock), the row the user has made
current, three text inputs for a new product, and a "Stock: n" label. Its
handlers add a product, raise or lower the stock of the current row, and save
the table to a data file or load it back from one.

This project models that state and those handlers:

- `pytext.dfy` (module `PyText`): trimming whitespace from both ends of a
  text. It covers Python's `str.strip()`, which the submit handler applies to
  each input, and the narrower trim `int()` does around a number. The set of
  characters dropped is a parameter (`StrSpace` or `IntSpace`).
- `pyint.dfy` (module `PyInt`): `str(n)` and `int(s)` for the stock count,
  with the round trip `int(str(n)) == n`.
- `table.dfy` (module `Table`): the table as a value. It defines the rows,
  the two stock updates, the records `save_data` writes and the rows
  `load_data` reads back.
- `app.dfy` (module `App`): the class `InventoryApp`. It holds the table, the
  current row, the inputs and the label as fields, and its methods are the
  handlers. Each method states its new state in terms of `Table`'s functions.
- `wrappers.dfy`: the `Option` type.

A row keeps the text of its Code, Color and Name cells and the stock as an
integer. In the source the Stock cell holds text. Every write to it is `str()`
of an integer, and every read is `int()` of that text, which gives the integer
back (`PyInt.ParseShow`). So the two representations agree.

The data file is a sequence of records, each a list of fields; `None` stands
for a missing file. An uncaught error while loading is modelled as `ok ==
false`. In that case the rows read before the bad record stay in the table,
as they do in the source. `PyInt.Parse` follows `int()` for base-10 text.
Surrounding whitespace is ignored, but not the same set that `str.strip()`
removes. CPython's `int()` turns non-ASCII whitespace into spaces and then
skips only ASCII whitespace (space, tab, LF, VT, FF, CR). So the separators
U+001C..U+001F, which `str.strip()` drops, make `int()` fail
(`PyInt.ParseKeepsSeparator`). One sign is allowed, and single underscores
may separate digits.

Two points about the data file:

- A comma inside a field does not corrupt the file. The code writes and reads
  through Python's `csv` module, which quotes such fields. At the level of
  records, every field therefore survives a save and a load.
- Stock can be negative. The handlers never make it negative, but the loader
  accepts a negative count from a hand-edited data file. The model keeps
  this: `Table.IncrementSticksBelowZero` shows that increment then decrement
  does not restore a negative stock.

## Model

| member | source | states |
|---|---|---|
| `PyText.IsSpace` | main.py:121-123 | no contract of its own: the characters `str.isspace()` accepts, which `str.strip()` drops; `PyInt.ParseKeepsSeparator` shows where it differs from `int()`'s set |
| `PyText.IsIntSpace` | main.py:88 | no contract of its own: the characters `int()` skips around a number, ASCII whitespace and the non-ASCII characters of `IsSpace`; `PyInt.ParseIgnoresPadding` and `PyInt.ParseKeepsSeparator` pin it down |
| `PyText.TrimStart` | main.py:121-123 | for either set of whitespace, the result is a suffix of the input; everything dropped is whitespace; it does not start with whitespace |
| `PyText.TrimEnd` | main.py:121-123 | for either set of whitespace, the result is a prefix of the input; everything dropped is whitespace; it does not end with whitespace |
| `PyText.Strip` | main.py:121-125 | the stripped text neither starts nor ends with whitespace, and it is empty exactly when the input is all whitespace (the emptiness test of the submit handler) |
| `PyText.StripUnpadded` | main.py:121-123 | text without leading or trailing whitespace is left unchanged |
| `PyText.StripIdempotent` | main.py:121-123 | stripping twice is the same as stripping once |
| `PyText.TrimStartPadded` | main.py:121-123 | whitespace put in front of a text is dropped again by the left trim |
| `PyText.TrimEndPadded` | main.py:121-123 | whitespace put after a text is dropped again by the right trim |
| `PyText.TrimStartAppend` | main.py:121-123 | the left trim of a text that is not blank leaves whatever follows it untouched |
| `PyText.StripPaddedText` | main.py:121-123 | whitespace added on both sides of a text is removed again by `strip()` |
| `PyInt.DigitChar` | main.py:110 | a digit value below 10 maps to the character of that decimal digit |
| `PyInt.ShowNat` | main.py:110 | `str()` of a non-negative number is all digits, has no leading zero unless it is 0, and its digits have the number as their value |
| `PyInt.Show` | main.py:110 | `str()` of any integer is non-empty and neither starts nor ends with whitespace |
| `PyInt.DigitGroupHasShape` | main.py:88 | the digit grammar of `int()` accepts exactly the texts that are non-empty, hold only digits and underscores, start and end with a digit, and have no two underscores side by side |
| `PyInt.ParseTrimmed` | main.py:88 | an accepted text is non-empty, starts with a digit or a sign and ends with a digit; a negative result needs a leading `-`, and without one the result is not negative |
| `PyInt.Parse` | main.py:88 | text made only of whitespace is rejected; the other properties of `int()` are the lemmas `ParseShow`, `ParseIgnoresPadding`, `ParseKeepsSeparator` and the `Parse*` examples |
| `PyInt.ParseTrimmedShow` | main.py:138 | `int()` reads the sign and digits that `str()` writes back as the same number |
| `PyInt.ParseShow` | main.py:138-140 | `int(str(n)) == n` for every integer `n`: the stock read from a cell is the value last written to it |
| `PyInt.ShowInjective` | main.py:110 | distinct stock values are written as distinct texts |
| `PyInt.ParseRejectsBlank` | main.py:88 | `int()` rejects empty and all-whitespace text |
| `PyInt.ParseRejectsStrayUnderscore` | main.py:88 | `int()` rejects doubled, leading and trailing underscores |
| `PyInt.ParseRejectsStrayCharacter` | main.py:88 | `int()` rejects a space after the sign, a trailing letter and a sign without digits |
| `PyInt.ParseSigned` | main.py:88 | `int()` accepts a leading `+` or `-` |
| `PyInt.ParseLeadingZeros` | main.py:88 | `int()` accepts leading zeros |
| `PyInt.ParseSeparators` | main.py:88 | `int()` accepts an underscore between digits |
| `PyInt.ParseIgnoresPadding` | main.py:88 | `int()` gives the same result for a text with whitespace it skips (ASCII whitespace, non-ASCII `str.isspace()` characters) added before and after it |
| `PyInt.ParseKeepsSeparator` | main.py:88 | U+001C is whitespace to `str.strip()` but not to `int()`: `int()` rejects U+001C followed by 5 |
| `Table.Incremented` | main.py:136-140 | the selected row's stock goes up by one; its other cells and every other row are unchanged; a table with no negative stock keeps none |
| `Table.Decremented` | main.py:146-150 | the selected row's stock goes down by one when it is positive, and otherwise the table is unchanged; other cells and rows are unchanged; no stock becomes negative |
| `Table.DecrementUndoesIncrement` | main.py:139-150 | increment then decrement of one row gives back the original table whenever that row's stock is not negative |
| `Table.IncrementUndoesDecrement` | main.py:139-150 | decrement then increment gives back the original table when the stock was positive |
| `Table.IncrementSticksBelowZero` | main.py:147-149 | with a negative stock, the decrement after an increment does nothing, so the table is not restored |
| `Table.StockLabel` | main.py:141 | no contract of its own: the f-string `Stock: {n}`; `Table.StockLabelShows` states its content |
| `Table.StockLabelShows` | main.py:141 | the label is "Stock: " followed by text that `int()` reads back as the count |
| `Table.RowRecord` | main.py:95-100 | no contract of its own: the four cell texts written for one row; `Table.RowRecordReadsBack` states that they are read back as the row |
| `Table.RowRecordReadsBack` | main.py:88-100 | the record saved for a row is loaded as that same row |
| `Table.Encode` | main.py:94-100 | the saved file has exactly one four-field record per row, in table order, holding the row's cell texts |
| `Table.ParseRecord` | main.py:88 | a record yields a row exactly when it has at least four fields and `int()` accepts the fourth; the row holds the first three fields and that number |
| `Table.ParsePrefix` | main.py:87-88 | loading stops at the first rejected record; every record before it is parsed into the output, in order |
| `Table.ParsePrefixUnique` | main.py:87-88 | any sequence meeting those conditions is the loader's output |
| `Table.Decode` | main.py:84-88 | the loaded rows are the parsed records before the first malformed one, in file order |
| `Table.DecodeUnique` | main.py:84-88 | the conditions on the loaded rows determine them |
| `Table.DecodeComplete` | main.py:87-88 | every record is loaded exactly when none is malformed |
| `Table.RoundTrip` | main.py:85-100 | loading the records that save writes gives back the same table, field for field |
| `App.InventoryApp.constructor` | main.py:26-48 | the window starts with an empty table, no current row, empty inputs and the label "Stock: 0" |
| `App.InventoryApp.SetCurrentRow` | main.py:114 | the user's choice of current row, which is -1 or a row of the table |
| `App.InventoryApp.TypeInputs` | main.py:121-123 | the three inputs hold what the user typed |
| `App.InventoryApp.ClearInputs` | main.py:127-129 | every input field becomes empty; nothing else changes |
| `App.InventoryApp.AddRow` | main.py:103-110 | exactly one row is appended at the end, and the rows before it are unchanged |
| `App.InventoryApp.GetSelectedRow` | main.py:112-117 | no selection exactly when `currentRow()` is -1; otherwise the current row, which is a valid index |
| `App.InventoryApp.Save` | main.py:90-100 | the file written is `Encode` of the table: one record per row, in order; the table is unchanged |
| `App.InventoryApp.SubmitItem` | main.py:119-132 | with all three stripped inputs non-empty: one row of the stripped texts with stock 0 is appended, the inputs are cleared and the new table is saved. Otherwise the table and inputs are unchanged. The label and current row are never touched, and no stock becomes negative |
| `App.InventoryApp.AddStock` | main.py:134-141 | with no current row nothing changes; otherwise the table becomes `Incremented` and the label shows the new count |
| `App.InventoryApp.ReduceStock` | main.py:143-151 | with no current row, or a stock of 0 or less, nothing changes (label included); otherwise the table becomes `Decremented` and the label shows the new count |
| `App.InventoryApp.Load` | main.py:79-88 | a missing file leaves everything unchanged. Otherwise the table becomes `Decode` of the file with no current row, and loading succeeds exactly when every record was read |
| `App.Open` | main.py:71-72 | at start-up the table holds what the file decodes to, or nothing when there is no file |
| `App.Reopen` | main.py:85-100 | saving and then starting again on the written file succeeds and shows the same rows |
| `App.ExampleSession` | main.py:119-141 | submitting P1/Red/GlossPaint, selecting it and adding stock twice, then saving and reopening, gives the single row (P1, Red, GlossPaint, 2) and the label "Stock: 2" |

## Left out

- Widget construction, layout, window geometry and signal wiring (main.py:16-69, main.py:177-181). They are replaced by the fields of `InventoryApp`. The user's actions on the window become the methods `SetCurrentRow` and `TypeInputs`.
- Editing a table cell directly. Table items are editable by default, so a user could type any text into a cell. The model assumes that the table changes only through the handlers, and so that every Stock cell holds `str()` of an integer.
- The 60-second autosave timer (main.py:75-77). It is event-loop timing. A save is modelled only as the operation `Save`.
- File I/O, the UTF-8 encoding and the `csv` module's quoting rules (main.py:85-86, main.py:92-93). The file is modelled as a sequence of records, each a list of fields.
- The report (`generate_report`, main.py:153-175). It uses an external PDF library and the wall-clock date.
- Console diagnostics (main.py:101, main.py:132, main.py:175).
- Error handling beyond the load: an error while loading is reported as `ok == false`. The abort of start-up that follows in the source is not modelled.
- Qt's own bookkeeping of the current row. The model assumes that appending a row at the end leaves the current row unchanged, and that emptying the table leaves no current row.
- `PyInt.Parse`: does not accept non-ASCII Unicode decimal digits, which `int()` does accept. It also ignores the limit on the number of digits that recent Python versions enforce.
