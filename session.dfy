/** The data path of the `GerenciadorBancoDados` window: the fixed map of
    strategies, the active one, the table that mirrors its records, and the
    add/edit/delete handlers. Widgets are reduced to what they report: the
    combo box to an index into `Choices`, the table's selection to a row index
    or -1, and each modal dialog to a `Dialog` value. */
module Session {
  import opened Profiles
  import opened Strategy

  /** What a confirm dialog hands back: the text of each of its fields when
      the user pressed OK, or nothing when the user cancelled or closed it. */
  datatype Dialog = Confirmed(texts: seq<string>) | Cancelled

  datatype Option<T> = None | Some(value: T)

  /** Label shown before any profile is selected. */
  const InitialLabel: string := "Contexto: Selecione um banco..."
  /** Messages shown when edit or delete is pressed with no row selected. */
  const SelectToEdit: string := "Selecione uma linha para editar."
  const SelectToDelete: string := "Selecione uma linha para excluir."

  /** The label text for the active profile's use case. */
  function UseCaseLabel(k: Kind): string
  {
    "Exemplo de Uso: " + UseCase(k)
  }

  /** Fills the new record from the dialog's text fields, one per column. */
  method CollectInput(cols: seq<string>, texts: seq<string>) returns (newData: Row)
    requires |texts| == |cols|
    ensures |newData| == |cols| && newData == texts
  {
    var data := new string[|cols|];
    for i := 0 to |cols|
      invariant forall j :: 0 <= j < i ==> data[j] == texts[j]
    {
      data[i] := texts[i];
    }
    newData := data[..];
  }

  /** The table model behind the window's table: column identifiers and rows. */
  class Table {
    var columns: seq<string>
    var rows: seq<Row>

    constructor ()
      ensures columns == [] && rows == []
    {
      columns := [];
      rows := [];
    }

    /** `setColumnIdentifiers`: new headers, rows kept. */
    method SetColumnIdentifiers(cols: seq<string>)
      modifies this
      ensures columns == cols && rows == old(rows)
    {
      columns := cols;
    }

    /** `setRowCount(0)`: the table is emptied. */
    method Clear()
      modifies this
      ensures columns == old(columns) && rows == []
    {
      rows := [];
    }

    /** `addRow`: the row is appended below the existing ones. */
    method AddRow(row: Row)
      modifies this
      ensures columns == old(columns) && rows == old(rows) + [row]
    {
      rows := rows + [row];
    }
  }

  /** The map holds exactly the combo-box names, each bound to the
      implementation registered under that name, with that implementation's
      columns. Only constant fields are involved. */
  ghost predicate Registry(m: map<string, Store>)
  {
    m.Keys == ChoiceSet &&
    forall n :: n in m ==> KeyOf(m[n].kind) == n && m[n].columns == Columns(m[n].kind)
  }

  /** The map the window's constructor builds is a registry. */
  lemma InitialRegistry(postgres: Store, mongo: Store, firebase: Store, couchbase: Store)
    requires postgres.kind == Postgres && postgres.columns == Columns(Postgres)
    requires mongo.kind == Mongo && mongo.columns == Columns(Mongo)
    requires firebase.kind == Firebase && firebase.columns == Columns(Firebase)
    requires couchbase.kind == Couchbase && couchbase.columns == Columns(Couchbase)
    ensures Registry(map["PostgreSQL" := postgres, "MongoDB" := mongo,
                         "Firebase" := firebase, "Couchbase" := couchbase])
  {
  }

  /** Every store of that map holds well-formed records. */
  lemma InitialWellFormed(postgres: Store, mongo: Store, firebase: Store, couchbase: Store)
    requires postgres.WellFormed() && mongo.WellFormed() && firebase.WellFormed() && couchbase.WellFormed()
    ensures var m := map["PostgreSQL" := postgres, "MongoDB" := mongo,
                         "Firebase" := firebase, "Couchbase" := couchbase];
      forall n :: n in m ==> m[n].WellFormed()
  {
  }

  /** Every store of that map holds its seed records. */
  lemma InitialSeeds(postgres: Store, mongo: Store, firebase: Store, couchbase: Store)
    requires postgres.records == Seed(postgres.kind) && mongo.records == Seed(mongo.kind)
    requires firebase.records == Seed(firebase.kind) && couchbase.records == Seed(couchbase.kind)
    ensures var m := map["PostgreSQL" := postgres, "MongoDB" := mongo,
                         "Firebase" := firebase, "Couchbase" := couchbase];
      forall n :: n in m ==> m[n].records == Seed(m[n].kind)
  {
    var m := map["PostgreSQL" := postgres, "MongoDB" := mongo,
                 "Firebase" := firebase, "Couchbase" := couchbase];
    forall n | n in m ensures m[n].records == Seed(m[n].kind) {
      var s := m[n];
      assert s == postgres || s == mongo || s == firebase || s == couchbase;
    }
  }

  /** Lines 184-188: one new store per implementation, put in a map under its key. */
  method NewStrategies() returns (m: map<string, Store>)
    ensures Registry(m)
    ensures forall n :: n in m ==> m[n].WellFormed() && m[n].records == Seed(m[n].kind)
    ensures fresh(m["PostgreSQL"]) && fresh(m["MongoDB"])
    ensures fresh(m["Firebase"]) && fresh(m["Couchbase"])
  {
    var postgres := new Store(Postgres);
    var mongo := new Store(Mongo);
    var firebase := new Store(Firebase);
    var couchbase := new Store(Couchbase);
    m := map["PostgreSQL" := postgres, "MongoDB" := mongo,
             "Firebase" := firebase, "Couchbase" := couchbase];
    InitialRegistry(postgres, mongo, firebase, couchbase);
    InitialWellFormed(postgres, mongo, firebase, couchbase);
    InitialSeeds(postgres, mongo, firebase, couchbase);
  }

  class Manager {
    /** The strategies map, filled once when the window is built. */
    const strategies: map<string, Store>
    const table: Table
    /** The active strategy; null only until the first selection. */
    var current: Store?
    /** The combo-box item last selected. */
    var selected: string
    var useCaseLabel: string

    /** The strategies map is a registry of the four profiles. */
    ghost predicate Registered()
    {
      Registry(strategies)
    }

    /** Every store's records are as wide as its columns. */
    ghost predicate AllWellFormed()
      reads strategies.Values
    {
      forall n :: n in strategies ==> strategies[n].WellFormed()
    }

    /** A profile is active and the label names its use case. */
    ghost predicate Selected()
      reads this
    {
      selected in strategies && current == strategies[selected] &&
      useCaseLabel == UseCaseLabel(current.kind)
    }

    /** After start-up, a selection or a button handler: a profile is active
        and the table shows exactly its columns and records. Cells typed
        into the grid are not modelled. */
    ghost predicate Valid()
      reads this, strategies.Values, table
    {
      Registered() && AllWellFormed() && Selected() &&
      table.columns == current.columns && table.rows == current.records
    }

    /** Builds the four stores, registers them, and selects the first
        combo-box item, as the window's constructor does. */
    constructor ()
      ensures Valid()
      ensures selected == Choices[0]
      ensures fresh(table)
      ensures fresh(strategies["PostgreSQL"]) && fresh(strategies["MongoDB"])
      ensures fresh(strategies["Firebase"]) && fresh(strategies["Couchbase"])
      ensures forall n :: n in strategies ==> strategies[n].records == Seed(strategies[n].kind)
    {
      var m := NewStrategies();
      strategies := m;
      table := new Table();
      current := null;
      selected := "";
      useCaseLabel := InitialLabel;
      new;
      UpdateInterface(0);
    }

    /** `updateInterface`: the selected combo-box name always resolves in the
        map; that store becomes active and the table shows its columns and
        records. No store's records change. */
    method UpdateInterface(index: nat)
      requires index < |Choices| && Registered() && AllWellFormed()
      modifies this, table
      ensures Valid()
      ensures selected == Choices[index] && current == strategies[Choices[index]]
      ensures KeyOf(current.kind) == Choices[index]
      ensures forall n :: n in strategies ==> strategies[n].records == old(strategies[n].records)
    {
      selected := Choices[index];
      current := strategies[selected];
      useCaseLabel := UseCaseLabel(current.kind);
      table.SetColumnIdentifiers(current.columns);
      RefreshTable();
    }

    /** `refreshTable`: clears the table, then adds every record of the
        active store in order. */
    method RefreshTable()
      requires current != null && Rectangular(current.records, |table.columns|)
      modifies table
      ensures table.rows == current.records && table.columns == old(table.columns)
    {
      table.Clear();
      var data := current.Read();
      for i := 0 to |data|
        invariant table.rows == data[..i] && table.columns == old(table.columns)
      {
        table.AddRow(data[i]);
      }
    }

    /** The add button: on OK the dialog's texts become a new last record of
        the active store; on cancel nothing changes. */
    method OnAdd(answer: Dialog)
      requires Valid()
      requires answer.Confirmed? ==> |answer.texts| == |current.columns|
      modifies current, table
      ensures Valid()
      ensures current.records ==
        if answer.Confirmed? then old(current.records) + [answer.texts] else old(current.records)
      ensures forall n :: n in strategies && n != selected ==>
        strategies[n].records == old(strategies[n].records)
    {
      var cols := current.columns;
      if answer.Confirmed? {
        var newData := CollectInput(cols, answer.texts);
        current.Create(newData);
        RefreshTable();
      }
    }

    /** The edit button: with no row selected it only shows a message; with a
        row selected and OK pressed that record is replaced by the dialog's
        texts; on cancel nothing changes. */
    method OnEdit(selectedRow: int, answer: Dialog) returns (notice: Option<string>)
      requires Valid()
      requires -1 <= selectedRow < |table.rows|
      requires answer.Confirmed? ==> |answer.texts| == |current.columns|
      modifies current, table
      ensures Valid()
      ensures notice == if selectedRow == -1 then Some(SelectToEdit) else None
      ensures current.records ==
        if selectedRow != -1 && answer.Confirmed?
        then old(current.records)[selectedRow := answer.texts]
        else old(current.records)
      ensures forall n :: n in strategies && n != selected ==>
        strategies[n].records == old(strategies[n].records)
    {
      if selectedRow == -1 {
        notice := Some(SelectToEdit);
        return;
      }
      notice := None;
      var cols := current.columns;
      if answer.Confirmed? {
        var newData := CollectInput(cols, answer.texts);
        current.Update(selectedRow, newData);
        RefreshTable();
      }
    }

    /** The delete button: with no row selected it only shows a message;
        otherwise the selected record is removed from the active store. */
    method OnDelete(selectedRow: int) returns (notice: Option<string>)
      requires Valid()
      requires -1 <= selectedRow < |table.rows|
      modifies current, table
      ensures Valid()
      ensures notice == if selectedRow == -1 then Some(SelectToDelete) else None
      ensures current.records ==
        if selectedRow != -1 then RemoveAt(old(current.records), selectedRow) else old(current.records)
      ensures forall n :: n in strategies && n != selected ==>
        strategies[n].records == old(strategies[n].records)
    {
      if selectedRow != -1 {
        notice := None;
        current.Delete(selectedRow);
        RefreshTable();
      } else {
        notice := Some(SelectToDelete);
      }
    }
  }
}
