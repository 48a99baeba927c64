/**
 * The flights table, held as a map from id to row. Each write is specified by
 * a function on the map that says which columns of which row it touches.
 */
module FlightRepository {
  import opened Wrappers
  import opened FlightModel

  /** UPDATE ... SET every column but created_at WHERE id = ?: one row, created_at kept. */
  function WriteAllButCreated(rows: map<int, FlightRecord>, id: int, r: FlightRecord): (t: map<int, FlightRecord>)
    ensures t.Keys == rows.Keys
    ensures forall k :: k in rows && k != id ==> t[k] == rows[k]
    ensures id in rows ==> t[id].createdAt == rows[id].createdAt
    ensures id in rows ==> t[id].(createdAt := r.createdAt) == r
  {
    if id in rows then rows[id := r.(createdAt := rows[id].createdAt)] else rows
  }

  /** UPDATE ... SET passenger_count, updated_at WHERE id = ?: two columns of one row. */
  function WritePassengerCount(rows: map<int, FlightRecord>, id: int, count: int, updatedAt: int): (t: map<int, FlightRecord>)
    ensures t.Keys == rows.Keys
    ensures forall k :: k in rows && k != id ==> t[k] == rows[k]
    ensures id in rows ==> t[id].passengerCount == count && t[id].updatedAt == updatedAt
    ensures id in rows ==> t[id].(passengerCount := rows[id].passengerCount, updatedAt := rows[id].updatedAt) == rows[id]
  {
    if id in rows then rows[id := rows[id].(passengerCount := count, updatedAt := updatedAt)] else rows
  }

  /** DELETE ... WHERE id = ?: the row count it reports and the table it leaves. */
  function DeleteRow(rows: map<int, FlightRecord>, id: int): (r: (int, map<int, FlightRecord>))
    ensures 0 <= r.0 <= 1 && (r.0 == 1 <==> id in rows)
    ensures r.1.Keys == rows.Keys - {id}
    ensures forall k :: k in r.1 ==> r.1[k] == rows[k]
  {
    (if id in rows then 1 else 0, rows - {id})
  }

  class FlightTable {
    var rows: map<int, FlightRecord>
    /** The id the serial column hands out next. */
    var nextId: int

    ghost predicate Valid()
      reads this
    {
      forall k :: k in rows ==> k < nextId
    }

    constructor ()
      ensures Valid() && rows == map[]
    {
      rows := map[];
      nextId := 1;
    }

    /** INSERT ... RETURNING: the row is stored under a fresh id and read back as a new object. */
    method Save(f: Flight) returns (saved: Flight)
      requires Valid()
      modifies this
      ensures Valid() && fresh(saved)
      ensures saved.id !in old(rows) && saved.Record() == f.Record()
      ensures rows == old(rows)[saved.id := f.Record()]
    {
      var id := nextId;
      rows := rows[id := f.Record()];
      nextId := nextId + 1;
      saved := new Flight.FromRow(id, f.Record());
    }

    /** SELECT ... WHERE id = ?: the stored row mapped to a new object, or empty. */
    method FindById(id: int) returns (found: Option<Flight>)
      ensures found.None? <==> id !in rows
      ensures found.Some? ==> fresh(found.value) && found.value.id == id && found.value.Record() == rows[id]
    {
      if id in rows {
        var f := new Flight.FromRow(id, rows[id]);
        found := Some(f);
      } else {
        found := None;
      }
    }

    /** update: writes the object's columns except created_at and returns the same object. */
    method Update(f: Flight) returns (same: Flight)
      modifies this`rows
      ensures same == f
      ensures rows == WriteAllButCreated(old(rows), f.id, f.Record())
    {
      rows := WriteAllButCreated(rows, f.id, f.Record());
      same := f;
    }

    /** updatePassengerCount: writes only the object's seat count and updatedAt. */
    method UpdatePassengerCount(f: Flight)
      modifies this`rows
      ensures rows == WritePassengerCount(old(rows), f.id, f.passengerCount, f.updatedAt)
    {
      rows := WritePassengerCount(rows, f.id, f.passengerCount, f.updatedAt);
    }

    /** deleteById: removes at most one row and reports how many it removed. */
    method DeleteById(id: int) returns (count: int)
      modifies this`rows
      ensures (count, rows) == DeleteRow(old(rows), id)
    {
      count, rows := DeleteRow(rows, id).0, DeleteRow(rows, id).1;
    }
  }
}
