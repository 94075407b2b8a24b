# Gerenciador Multi-Database: record stores and session controller

This project models the core of an educational Swing application. The user
picks one of four illustrative "database" profiles: MongoDB, Firebase,
PostgreSQL or Couchbase. The user then creates, reads, updates and deletes
rows of that profile's in-memory record list. Each row is a list of text
fields, one per column.

The model has three modules:

- `Profiles` (`profiles.dfy`): the constant side of the four
  `DatabaseStrategy` implementations. This covers `getDbName`, `getUseCase`,
  `getExplanation`, `getColumnNames` and the two seed rows each constructor
  adds. It also holds the combo-box item list and the key each implementation
  is registered under in the strategies map. The four implementation classes
  differ only in these constants, so they are one table indexed by
  `Kind` here.
- `Strategy` (`strategy.dfy`): class `Store`, one implementation object. Its
  `records` field is the private `List<String[]> dataStore`. `Create`,
  `Update` and `Delete` change it in place as `add`, `set` and `remove(int)`
  do; `Read` changes nothing and returns the records. `RemoveAt` is the
  specification of order-preserving removal.
- `Session` (`session.dfy`): class `Manager`, the data path of
  `GerenciadorBancoDados`. It holds the fixed strategies map, the active
  strategy, the use-case label and a `Table` object that stands for the
  `DefaultTableModel`. `UpdateInterface`, `RefreshTable` and the add, edit
  and delete button handlers are methods.

The widgets are reduced to the values they report:

- The combo box reports an index into `Choices`.
- `JTable.getSelectedRow()` reports a row index, or -1 when no row is selected.
- Each `JOptionPane` confirm dialog reports a `Dialog` value. It is
  `Confirmed(texts)` with one text per field, or `Cancelled` for cancel or
  close.
- A message dialog becomes the `notice` result of a handler.

The invariant `Manager.Valid()` states the following:

- The map's keys are exactly the four combo-box names.
- Each key holds the implementation registered under it, so distinct names
  hold distinct stores.
- Every stored record is as wide as its profile's column list.
- The label names the active profile's use case.
- The table shows exactly the active store's columns and records, in order.
  This holds after start-up, after each selection and after each of the three
  buttons. Cells typed into the grid are not modelled (see "## Left out").

Every handler keeps this invariant. As a result, the row index that the table
reports is always a valid index into the active store. No `update` or
`delete` issued by the window can go out of range.

Two points of the code shape the model:

- The profile name comes from a combo box whose items are fixed (line 194 of
  `Projeto-Bancos/GerenciadorBancoDados.java`), so `UpdateInterface` takes an
  index into those items. Every item is a key of the strategies map.
- `create` does not check how many fields a record has. The add and edit
  handlers build one text field per column and copy them into the record
  (lines 245-258), so `OnAdd` and `OnEdit` require one text per column of the
  dialog's answer. From that, the row-width invariant is proved.

## Model

| member | source | states |
|---|---|---|
| `Profiles.Columns` | Projeto-Bancos/GerenciadorBancoDados.java:58 | each implementation's `getColumnNames()` has exactly three names (lines 58, 91, 123, 155) |
| `Profiles.Seed` | Projeto-Bancos/GerenciadorBancoDados.java:40-43 | each constructor adds exactly two seed records, each as wide as that profile's column list (also lines 73-76, 106-109, 138-141) |
| `Strategy.RemoveAt` | Projeto-Bancos/GerenciadorBancoDados.java:67 | removal at index `i` leaves one record fewer; records before `i` keep their index; each later record moves down exactly one place, so survivors keep their order |
| `Strategy.RemoveAtMultiset` | Projeto-Bancos/GerenciadorBancoDados.java:67 | removal loses exactly the record at `i` and no other: the multiset of the result plus that record is the original multiset |
| `Strategy.RemoveAtRectangular` | Projeto-Bancos/GerenciadorBancoDados.java:67 | removal keeps every remaining record as wide as before |
| `Strategy.Store.constructor` | Projeto-Bancos/GerenciadorBancoDados.java:37-43 | a new store has its implementation's columns and exactly its two seed records, all of full width |
| `Strategy.Store.Create` | Projeto-Bancos/GerenciadorBancoDados.java:61 | `create` appends: the new record is last and all earlier records are unchanged; a full-width record keeps the store well-formed (same code at lines 94, 126, 158) |
| `Strategy.Store.Read` | Projeto-Bancos/GerenciadorBancoDados.java:63 | `read` returns exactly the current records, in order |
| `Strategy.Store.Update` | Projeto-Bancos/GerenciadorBancoDados.java:65 | for a valid index, `update` puts the new record at that index; the length and every other index are unchanged; a full-width record keeps the store well-formed (same code at lines 98, 130, 162) |
| `Strategy.Store.Delete` | Projeto-Bancos/GerenciadorBancoDados.java:67 | for a valid index, `delete` leaves the records with that index removed (`RemoveAt`) and keeps the store well-formed (same code at lines 100, 132, 164) |
| `Session.CollectInput` | Projeto-Bancos/GerenciadorBancoDados.java:255-258 | the loop that fills `newData` yields a record with one entry per column, equal to the dialog's texts in order |
| `Session.Table.constructor` | Projeto-Bancos/GerenciadorBancoDados.java:215 | the table model starts with no columns and no rows |
| `Session.Table.SetColumnIdentifiers` | Projeto-Bancos/GerenciadorBancoDados.java:311 | the headers become the given column names; rows are kept |
| `Session.Table.Clear` | Projeto-Bancos/GerenciadorBancoDados.java:317 | `setRowCount(0)` empties the rows and keeps the headers |
| `Session.Table.AddRow` | Projeto-Bancos/GerenciadorBancoDados.java:320 | `addRow` appends the row below the existing ones |
| `Session.InitialRegistry` | Projeto-Bancos/GerenciadorBancoDados.java:184-188 | the map the window builds has exactly the four combo-box names as keys, each bound to the implementation of that name with its columns |
| `Session.InitialWellFormed` | Projeto-Bancos/GerenciadorBancoDados.java:184-188 | every store in the map the window builds holds full-width records |
| `Session.InitialSeeds` | Projeto-Bancos/GerenciadorBancoDados.java:184-188 | every store in the map the window builds holds exactly its seed records |
| `Session.NewStrategies` | Projeto-Bancos/GerenciadorBancoDados.java:184-188 | the strategies map holds exactly the four combo-box names, each bound to a new store of the implementation registered under it, holding its seed records of full width |
| `Session.Manager.constructor` | Projeto-Bancos/GerenciadorBancoDados.java:184-302 | after start-up the table and the four stores are new objects, the first combo-box item (PostgreSQL) is active, the table shows it, and every store holds its seed records |
| `Session.Manager.UpdateInterface` | Projeto-Bancos/GerenciadorBancoDados.java:305-314 | the selected combo-box name always resolves in the map; that store becomes active; the label and table show it; no store's records change, so switching away and back finds the same records |
| `Session.Manager.RefreshTable` | Projeto-Bancos/GerenciadorBancoDados.java:316-322 | for records as wide as the headers, after the clear-then-copy loop, the table rows equal the active store's records element for element and in order; rows of a previous profile are gone |
| `Session.Manager.OnAdd` | Projeto-Bancos/GerenciadorBancoDados.java:242-262 | on OK the dialog's texts become the active store's new last record; on cancel no data changes; other profiles are untouched; the table is back in step |
| `Session.Manager.OnEdit` | Projeto-Bancos/GerenciadorBancoDados.java:264-290 | with no row selected only the "select a row" message appears and no data changes; with a row selected and OK, exactly that record is replaced; on cancel no data changes; other profiles are untouched |
| `Session.Manager.OnDelete` | Projeto-Bancos/GerenciadorBancoDados.java:292-300 | with no row selected only the message appears and no data changes; otherwise exactly the selected record is removed with order kept; other profiles are untouched |

## Left out

- Swing construction, layout, colours, fonts, the look-and-feel set-up and
  `main` (lines 178-231, 324-330) are presentation only.
- The information button (lines 235-240) only shows `Explanation` under the
  title "Sobre " + `DbName` in a message dialog. Both texts are kept as
  constants in `Profiles`, but the dialog is not modelled.
- The edit dialog pre-fills its fields from the table (line 277). This
  affects only what the user sees first. The texts the user confirms are the
  handler's input.
- `DefaultTableModel` pads or truncates its rows to the column count, both in
  `setColumnIdentifiers` (line 311) and in `addRow` (line 320). This is not
  modelled. `RefreshTable` requires the active records to be exactly as wide
  as the headers, and under `Manager.Valid()` every record has exactly one
  field per column, so the padding never changes a row.
- `Store.Read` returns the current records as a value. The Java method
  returns the live list, so a caller could alias and mutate it. No caller
  does.
- `Store.Update`, `Store.Delete`: `ArrayList` index exceptions are not
  modelled. Valid indices are preconditions, and the handlers are proved to
  meet them.
- `DbName`, `UseCase`, `Explanation` and `KeyOf` in `Profiles` (lines 46-56,
  79-89, 112-121, 144-153, 185-188), the combo-box items `Choices` and
  `ChoiceSet` (line 194), `UseCaseLabel` (line 309) and the messages
  `InitialLabel` (line 209), `SelectToEdit` (line 267) and `SelectToDelete`
  (line 298) are constant tables and text with no contract of their own. They enter the proofs through
  `Registry` and `Manager.Valid()`.
- Editing a cell in the grid is not modelled. The table model is a plain
  `DefaultTableModel` (lines 215-216), whose cells are all editable. A typed
  value changes only the model's own copy of the row, because `addRow`
  (line 320) copies each record. The store keeps its old value, and the next
  `refreshTable` shows that value again. So the table clause of
  `Manager.Valid()` holds only across the modelled events: start-up, a
  selection, and the add, edit and delete buttons. A grid edit never changes
  the row count, so the selected row index is still a valid store index.
- The accent characters in the constant texts are Dafny `char`s. There is no
  encoding or normalisation.
