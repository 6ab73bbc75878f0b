/**
 * The schedule store: a table of rows keyed by generated id, its queries
 * (by id, all, by customer, by status) and its two writes (save, delete).
 *
 * `Table` is the value of the store and carries the specification of every
 * operation; `Repository` is the shared object the handlers write through.
 */
module Repositories {
  import opened Entities

  /** The rows of the store and the next value of its identity column. */
  datatype Table = Table(rows: map<int, Schedule>, nextId: int) {

    /** Identity keys are positive, below the counter, and each row carries its own key. */
    predicate Valid() {
      && 1 <= nextId
      && forall k :: k in rows ==> 1 <= k < nextId && rows[k].id == Some(k)
    }

    /** findById: the row stored under `id`, if any. */
    function FindById(id: int): (r: Option<Schedule>)
      ensures r.Some? <==> id in rows
      ensures r.Some? ==> r.value == rows[id]
      ensures Valid() && r.Some? ==> r.value.id == Some(id)
    {
      if id in rows then Some(rows[id]) else None
    }

    /** findAll: every stored row, in no particular order. */
    function FindAll(): (r: set<Schedule>)
      ensures forall k :: k in rows ==> rows[k] in r
      ensures Valid() ==> forall s :: s in r ==> s.id.Some? && FindById(s.id.value) == Some(s)
    {
      set k | k in rows :: rows[k]
    }

    /** findAllByIdCliente: the stored rows whose customer is `idCliente`. */
    function FindAllByIdCliente(idCliente: int): (r: set<Schedule>)
      ensures r <= FindAll()
      ensures forall k :: k in rows ==> (rows[k] in r <==> rows[k].idCliente == Some(idCliente))
    {
      set s | s in FindAll() && s.idCliente == Some(idCliente)
    }

    /** findAllByStatusPagamento: the stored rows whose status is `status`. */
    function FindAllByStatusPagamento(status: PaymentStatus): (r: set<Schedule>)
      ensures r <= FindAll()
      ensures forall k :: k in rows ==> (rows[k] in r <==> rows[k].statusPagamento == Some(status))
    {
      set s | s in FindAll() && s.statusPagamento == Some(status)
    }

    /**
     * save: a row whose id is stored overwrites that row; any other row (no id,
     * or an id the store does not hold) is inserted under the next generated
     * id. Returns the new table and the row as saved.
     */
    function Save(s: Schedule): (r: (Table, Schedule))
      ensures r.1.id.Some? && r.0.rows == rows[r.1.id.value := r.1]
      ensures Valid() ==> r.0.Valid()
    {
      if s.id.Some? && s.id.value in rows then
        (this.(rows := rows[s.id.value := s]), s)
      else
        var row := s.(id := Some(nextId));
        (Table(rows[nextId := row], nextId + 1), row)
    }

    /** delete: removes the row under the given record's id; a record without a stored id changes nothing. */
    function Delete(s: Schedule): (r: Table)
      ensures r.nextId == nextId
      ensures forall k :: k in r.rows <==> k in rows && Some(k) != s.id
      ensures forall k :: k in r.rows ==> r.rows[k] == rows[k]
    {
      if s.id.Some? then this.(rows := rows - {s.id.value}) else this
    }
  }

  /** An empty store: no rows, identity starting at 1. */
  function EmptyTable(): (t: Table)
    ensures t.Valid() && t.FindAll() == {}
  {
    Table(map[], 1)
  }

  /** Saving a row that has no stored id inserts it under a key no row was using. */
  lemma SaveInsertsUnderFreshKey(t: Table, s: Schedule)
    requires t.Valid()
    requires !(s.id.Some? && s.id.value in t.rows)
    ensures var (t', row) := t.Save(s);
      && row.id.Some? && row.id.value !in t.rows
      && row == s.(id := row.id)
      && t'.rows.Keys == t.rows.Keys + {row.id.value}
      && forall k :: k in t.rows ==> t'.rows[k] == t.rows[k]
  {
  }

  /** Saving a row whose id is stored replaces exactly that row. */
  lemma SaveOverwritesOnlyThatKey(t: Table, s: Schedule)
    requires s.id.Some? && s.id.value in t.rows
    ensures var (t', row) := t.Save(s);
      && row == s
      && t'.rows.Keys == t.rows.Keys
      && t'.FindById(s.id.value) == Some(s)
      && forall k :: k in t.rows && k != s.id.value ==> t'.rows[k] == t.rows[k]
  {
  }

  /** A row is listed by status Pending or by status Paid, never both. */
  lemma StatusQueriesDisjoint(t: Table)
    requires t.Valid()
    ensures t.FindAllByStatusPagamento(Pending) !! t.FindAllByStatusPagamento(Paid)
  {
  }

  /**
   * Because every row carries its own key, distinct keys hold distinct rows,
   * so findAll lists exactly one record per stored key.
   */
  lemma {:induction false} FindAllOnePerRecord(t: Table)
    requires t.Valid()
    ensures |t.FindAll()| == |t.rows|
    decreases t.nextId
  {
    if t.nextId == 1 {
      assert forall k :: k !in t.rows;
      assert t.rows == map[];
    } else {
      var k := t.nextId - 1;
      var t' := Table(t.rows - {k}, k);
      FindAllOnePerRecord(t');
      if k in t.rows {
        assert t.FindAll() == t'.FindAll() + {t.rows[k]};
        assert t.rows[k] !in t'.FindAll();
        assert t'.rows.Keys == t.rows.Keys - {k};
      } else {
        assert t'.rows == t.rows;
      }
    }
  }

  /**
   * The store object shared by the handlers. `rows` is the table and
   * `nextId` the identity counter. `Table` above is the specification; the
   * methods here are the implementation, each proved equal to its `Table`
   * counterpart on `State()`.
   */
  class Repository {
    var rows: map<int, Schedule>
    var nextId: int

    /** The value of the store. */
    function State(): Table
      reads this
    {
      Table(rows, nextId)
    }

    ghost predicate Valid()
      reads this
    {
      State().Valid()
    }

    constructor ()
      ensures Valid() && State() == EmptyTable()
    {
      rows := map[];
      nextId := 1;
    }

    /** findById: a freshly loaded entity for the row under `id`, or none. */
    method FindById(id: int) returns (r: Option<Entity>)
      ensures r.None? <==> State().FindById(id).None?
      ensures r.Some? ==> fresh(r.value) && r.value.Snapshot() == State().FindById(id).value
    {
      if id in rows {
        var e := new Entity.Load(rows[id]);
        r := Some(e);
      } else {
        r := None;
      }
    }

    method FindAll() returns (r: set<Schedule>)
      ensures r == State().FindAll()
    {
      r := set k | k in rows :: rows[k];
    }

    method FindAllByIdCliente(idCliente: int) returns (r: set<Schedule>)
      ensures r == State().FindAllByIdCliente(idCliente)
    {
      r := set s | s in State().FindAll() && s.idCliente == Some(idCliente);
    }

    method FindAllByStatusPagamento(status: PaymentStatus) returns (r: set<Schedule>)
      ensures r == State().FindAllByStatusPagamento(status)
    {
      r := set s | s in State().FindAll() && s.statusPagamento == Some(status);
    }

    /**
     * save: an entity without an id is inserted and receives the generated id
     * (the same object is returned); an entity with an id is merged and a
     * separate managed copy is returned, leaving the argument as it was.
     */
    method Save(e: Entity) returns (saved: Entity)
      requires Valid()
      modifies this, e
      ensures Valid()
      ensures State() == old(State().Save(e.Snapshot())).0
      ensures saved.Snapshot() == old(State().Save(e.Snapshot())).1
      ensures old(e.id).None? ==> saved == e
      ensures old(e.id).Some? ==> fresh(saved) && e.Snapshot() == old(e.Snapshot())
    {
      var s := e.Snapshot();
      if s.id.Some? && s.id.value in rows {
        rows := rows[s.id.value := s];
        saved := new Entity.Load(s);
      } else {
        var row := s.(id := Some(nextId));
        rows := rows[nextId := row];
        nextId := nextId + 1;
        if e.id.None? {
          e.id := row.id;
          saved := e;
        } else {
          saved := new Entity.Load(row);
        }
      }
    }

    /** delete: removes the row under the entity's id, if there is one. */
    method Delete(e: Entity)
      requires Valid()
      modifies this
      ensures Valid()
      ensures State() == old(State().Delete(e.Snapshot()))
    {
      if e.id.Some? {
        rows := rows - {e.id.value};
      }
    }
  }
}
