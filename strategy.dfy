/** One record store behind the `DatabaseStrategy` interface. The four
    implementations share the same create/read/update/delete code over a
    private list of rows; they differ only in the constants of `Profiles`. */
module Strategy {
  import opened Profiles

  /** The list that remains after the element at index `i` is taken out and
      every later element moves down by one place. */
  function RemoveAt<T>(s: seq<T>, i: nat): (r: seq<T>)
    requires i < |s|
    ensures |r| == |s| - 1
    ensures forall j :: 0 <= j < i ==> r[j] == s[j]
    ensures forall j :: i <= j < |r| ==> r[j] == s[j + 1]
  {
    s[..i] + s[i + 1..]
  }

  /** Removal loses exactly the element at `i` and nothing else. */
  lemma {:induction false} RemoveAtMultiset<T>(s: seq<T>, i: nat)
    requires i < |s|
    ensures multiset(RemoveAt(s, i)) + multiset{s[i]} == multiset(s)
  {
    assert s == s[..i] + [s[i]] + s[i + 1..];
  }

  /** Every row of `rows` has exactly `width` fields. */
  predicate Rectangular(rows: seq<Row>, width: nat)
  {
    forall r :: r in rows ==> |r| == width
  }

  /** Removing a row keeps every remaining row as wide as before. */
  lemma RemoveAtRectangular(rows: seq<Row>, i: nat, width: nat)
    requires i < |rows|
    ensures Rectangular(rows, width) ==> Rectangular(RemoveAt(rows, i), width)
  {
  }

  /** A record store: one `DatabaseStrategy` implementation and its list of rows. */
  class Store {
    const kind: Kind
    const columns: seq<string>
    var records: seq<Row>

    /** Every stored record is as wide as the column list. The store itself
        does not enforce this; the session's handlers keep it. */
    predicate WellFormed()
      reads this
    {
      Rectangular(records, |columns|)
    }

    /** The implementation's constructor: its fixed columns and its two seed records. */
    constructor (k: Kind)
      ensures kind == k && columns == Columns(k)
      ensures records == Seed(k)
      ensures WellFormed() && |records| == 2
    {
      kind := k;
      columns := Columns(k);
      records := Seed(k);
    }

    /** `create`: the new record becomes the last one; earlier ones stay put. */
    method Create(data: Row)
      modifies this
      ensures records == old(records) + [data]
      ensures old(WellFormed()) && |data| == |columns| ==> WellFormed()
    {
      records := records + [data];
    }

    /** `read`: the current records, in order. */
    method Read() returns (rows: seq<Row>)
      ensures rows == records
    {
      rows := records;
    }

    /** `update`: the record at `index` is replaced; length and all other
        records are unchanged. */
    method Update(index: int, data: Row)
      requires 0 <= index < |records|
      modifies this
      ensures |records| == |old(records)| && records[index] == data
      ensures forall j :: 0 <= j < |records| && j != index ==> records[j] == old(records)[j]
      ensures old(WellFormed()) && |data| == |columns| ==> WellFormed()
    {
      records := records[index := data];
    }

    /** `delete`: the record at `index` is removed and the later ones move
        down one place, keeping their order. */
    method Delete(index: int)
      requires 0 <= index < |records|
      modifies this
      ensures records == RemoveAt(old(records), index)
      ensures old(WellFormed()) ==> WellFormed()
    {
      RemoveAtRectangular(records, index, |columns|);
      records := RemoveAt(records, index);
    }
  }
}
