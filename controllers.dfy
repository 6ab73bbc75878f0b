/**
 * The HTTP handlers of the schedule API, with the Paid guard that every
 * mutating handler applies before it writes.
 *
 * Each handler is specified by `Handle`, a function of the store's value and
 * the request; the `Controller` methods perform the same steps on the entity
 * objects and the shared repository and are proved to agree with it.
 */
module Controllers {
  import opened Entities
  import opened Repositories

  /** What a response carries besides its kind. */
  datatype Body =
    | NoBody
    | Records(records: set<Schedule>)
    | Record(record: Schedule)
    | NewPaymentDate(date: Option<Timestamp>)
      /** The stored record's details reported when it is already paid. */
    | PaidDetails(paidId: Option<int>, paidAt: Option<Timestamp>, paidStatus: Option<PaymentStatus>,
                  paidValor: Option<Amount>, paidForma: Option<string>)
    | PaidNotDeletable

  /** The outcome kinds: 200, 201 with the assigned id, 400, 404. */
  datatype Response =
    | Ok(body: Body)
    | Created(createdId: int)
    | BadRequest(reason: Body)
    | NotFound

  /** One call of the API, with the clock reading `now` taken by the handler. */
  datatype Request =
    | ListAll
    | GetById(id: int)
    | ListByCliente(idCliente: int)
    | ListByStatus(status: PaymentStatus)
    | Create(body: Schedule, now: Timestamp)
    | Pay(id: int, formaPagamento: Option<string>, now: Timestamp)
    | Reschedule(id: int, dataDoPagamento: Option<Timestamp>, now: Timestamp)
    | Remove(id: int)

  /** The details of an already-paid record that pay and reschedule report. */
  function Details(s: Schedule): Body {
    PaidDetails(s.id, s.dataDoPagamento, s.statusPagamento, s.valor, s.formaPagamento)
  }

  /**
   * The record create saves: the body as sent, its id included, stamped now,
   * Pending and with no payment method.
   */
  function NewSchedule(body: Schedule, now: Timestamp): Schedule {
    body.(dataAgendamentoDoPagamento := Some(now), statusPagamento := Some(Pending), formaPagamento := None)
  }

  /** True iff the body names a key the store holds, so that saving it merges over that row. */
  predicate NamesStoredKey(t: Table, body: Schedule) {
    body.id.Some? && body.id.value in t.rows
  }

  /** The record pay saves: the given method (possibly none), paid now, status Paid. */
  function Paying(s: Schedule, forma: Option<string>, now: Timestamp): Schedule {
    s.(formaPagamento := forma, dataDoPagamento := Some(now), statusPagamento := Some(Paid))
  }

  /** The record reschedule saves: stamped now, with the supplied payment date. */
  function Rescheduling(s: Schedule, date: Option<Timestamp>, now: Timestamp): Schedule {
    s.(dataAgendamentoDoPagamento := Some(now), dataDoPagamento := date)
  }

  /**
   * What one request does to the store and what it answers. Every request
   * keeps the store's key invariant; reads, NotFound and BadRequest leave the
   * store as it was.
   */
  function Handle(t: Table, req: Request): (r: (Table, Response))
    ensures t.Valid() ==> r.0.Valid()
    ensures req.ListAll? || req.GetById? || req.ListByCliente? || req.ListByStatus? ==> r.0 == t
    ensures r.1.NotFound? || r.1.BadRequest? ==> r.0 == t
  {
    match req
    case ListAll => (t, Ok(Records(t.FindAll())))
    case GetById(id) =>
      (t, match t.FindById(id) case Some(s) => Ok(Record(s)) case None => NotFound)
    case ListByCliente(c) => (t, Ok(Records(t.FindAllByIdCliente(c))))
    case ListByStatus(st) => (t, Ok(Records(t.FindAllByStatusPagamento(st))))
    case Create(body, now) =>
      var (t', row) := t.Save(NewSchedule(body, now));
      (t', Created(row.id.value))
    case Pay(id, forma, now) =>
      (match t.FindById(id)
       case None => (t, NotFound)
       case Some(s) =>
         if IsPaid(s) then (t, BadRequest(Details(s)))
         else (t.Save(Paying(s, forma, now)).0, Ok(NoBody)))
    case Reschedule(id, date, now) =>
      (match t.FindById(id)
       case None => (t, NotFound)
       case Some(s) =>
         if IsPaid(s) then (t, BadRequest(Details(s)))
         else (t.Save(Rescheduling(s, date, now)).0, Ok(NewPaymentDate(date))))
    case Remove(id) =>
      (match t.FindById(id)
       case None => (t, NotFound)
       case Some(s) =>
         if IsPaid(s) then (t, BadRequest(PaidNotDeletable))
         else (t.Delete(s), Ok(NoBody)))
  }

  // Properties of the handlers, one request at a time.

  /**
   * Create with a body that names no stored key inserts a new record under a
   * key no record was using, with status Pending, no payment method and the
   * scheduling stamp `now`, whatever else the body held; the payment date is
   * kept as the body sent it. The answer carries the assigned key.
   */
  lemma CreateInsertsPending(t: Table, body: Schedule, now: Timestamp)
    requires t.Valid()
    requires !NamesStoredKey(t, body)
    ensures var (t', r) := Handle(t, Create(body, now));
      && r.Created? && r.createdId !in t.rows
      && t'.Valid()
      && t'.FindById(r.createdId) == Some(NewSchedule(body, now).(id := Some(r.createdId)))
      && t'.rows[r.createdId].statusPagamento == Some(Pending)
      && t'.rows[r.createdId].formaPagamento == None
      && t'.rows[r.createdId].dataAgendamentoDoPagamento == Some(now)
      && t'.rows[r.createdId].dataDoPagamento == body.dataDoPagamento
      && t'.rows.Keys == t.rows.Keys + {r.createdId}
      && forall k :: k in t.rows ==> t'.rows[k] == t.rows[k]
  {
    SaveInsertsUnderFreshKey(t, NewSchedule(body, now));
  }

  /**
   * Create with a body that names a stored key merges over that record,
   * whatever its status: the record becomes the body, stamped now, Pending
   * and with no payment method. No other record changes, and the answer
   * carries that key.
   */
  lemma CreateOverwritesStored(t: Table, body: Schedule, now: Timestamp)
    requires t.Valid()
    requires NamesStoredKey(t, body)
    ensures var k := body.id.value;
      && Handle(t, Create(body, now)) == (t.(rows := t.rows[k := NewSchedule(body, now)]), Created(k))
      && Handle(t, Create(body, now)).0.Valid()
      && Handle(t, Create(body, now)).0.rows[k].statusPagamento == Some(Pending)
  {
    SaveOverwritesOnlyThatKey(t, NewSchedule(body, now));
  }

  /**
   * Create as evidently intended: the body's id is ignored and the record is
   * always inserted under a generated key.
   */
  function CreateIntended(t: Table, body: Schedule, now: Timestamp): (r: (Table, Response))
    requires t.Valid()
    ensures r.1.Created? && r.1.createdId !in t.rows && r.0.Valid()
    ensures r.0.rows == t.rows[r.1.createdId := NewSchedule(body, now).(id := Some(r.1.createdId))]
  {
    var (t', row) := t.Save(NewSchedule(body, now).(id := None));
    (t', Created(row.id.value))
  }

  /** Pay, reschedule and delete on a key with no record answer NotFound and change nothing. */
  lemma MissingIdNotFound(t: Table, req: Request)
    requires req.Pay? || req.Reschedule? || req.Remove? || req.GetById?
    requires req.id !in t.rows
    ensures Handle(t, req) == (t, NotFound)
  {
  }

  /** Pay on a Paid record answers BadRequest with its details and does not save. */
  lemma PayPaidUnchanged(t: Table, id: int, forma: Option<string>, now: Timestamp)
    requires id in t.rows && IsPaid(t.rows[id])
    ensures Handle(t, Pay(id, forma, now)) == (t, BadRequest(Details(t.rows[id])))
  {
  }

  /**
   * Pay on a record that is not Paid sets status Paid, the payment method to
   * the requested value (possibly none) and the payment date to `now`; every
   * other field and every other record is unchanged.
   */
  lemma PayPendingEffect(t: Table, id: int, forma: Option<string>, now: Timestamp)
    requires t.Valid()
    requires id in t.rows && !IsPaid(t.rows[id])
    ensures var (t', r) := Handle(t, Pay(id, forma, now));
      && r == Ok(NoBody)
      && t'.Valid() && t'.nextId == t.nextId
      && t'.rows == t.rows[id := Paying(t.rows[id], forma, now)]
      && IsPaid(t'.rows[id]) && t'.rows[id].formaPagamento == forma
      && t'.rows[id].dataDoPagamento == Some(now)
  {
    SaveOverwritesOnlyThatKey(t, Paying(t.rows[id], forma, now));
  }

  /** A second pay of the same record is refused and leaves the store as the first left it. */
  lemma SecondPayRejected(t: Table, id: int, f1: Option<string>, f2: Option<string>, n1: Timestamp, n2: Timestamp)
    requires t.Valid()
    requires id in t.rows
    ensures var t1 := Handle(t, Pay(id, f1, n1)).0;
      Handle(t1, Pay(id, f2, n2)) == (t1, BadRequest(Details(t1.rows[id])))
  {
    if !IsPaid(t.rows[id]) {
      PayPendingEffect(t, id, f1, n1);
    }
  }

  /** Reschedule on a Paid record answers BadRequest and leaves the record, and its payment date, as it was. */
  lemma ReschedulePaidUnchanged(t: Table, id: int, date: Option<Timestamp>, now: Timestamp)
    requires id in t.rows && IsPaid(t.rows[id])
    ensures Handle(t, Reschedule(id, date, now)) == (t, BadRequest(Details(t.rows[id])))
  {
  }

  /**
   * Reschedule on a record that is not Paid stamps it `now` and sets the
   * payment date to the supplied value; the status is kept, and no other
   * field or record changes. The answer carries the new payment date.
   */
  lemma ReschedulePendingEffect(t: Table, id: int, date: Option<Timestamp>, now: Timestamp)
    requires t.Valid()
    requires id in t.rows && !IsPaid(t.rows[id])
    ensures var (t', r) := Handle(t, Reschedule(id, date, now));
      && r == Ok(NewPaymentDate(date))
      && t'.Valid() && t'.nextId == t.nextId
      && t'.rows == t.rows[id := Rescheduling(t.rows[id], date, now)]
      && t'.rows[id].statusPagamento == t.rows[id].statusPagamento
      && t'.rows[id].dataAgendamentoDoPagamento == Some(now)
      && t'.rows[id].dataDoPagamento == date
  {
    SaveOverwritesOnlyThatKey(t, Rescheduling(t.rows[id], date, now));
  }

  /** Delete on a Paid record answers BadRequest and the record is still found by id. */
  lemma DeletePaidKeepsRecord(t: Table, id: int)
    requires id in t.rows && IsPaid(t.rows[id])
    ensures var (t', r) := Handle(t, Remove(id));
      && r == BadRequest(PaidNotDeletable)
      && t' == t
      && Handle(t', GetById(id)).1 == Ok(Record(t.rows[id]))
  {
  }

  /** Delete on a record that is not Paid removes exactly that key; a later lookup answers NotFound. */
  lemma DeletePendingRemovesKey(t: Table, id: int)
    requires t.Valid()
    requires id in t.rows && !IsPaid(t.rows[id])
    ensures var (t', r) := Handle(t, Remove(id));
      && r == Ok(NoBody)
      && t'.Valid()
      && t'.rows == t.rows - {id}
      && Handle(t', GetById(id)).1 == NotFound
  {
    var t' := t.Delete(t.rows[id]);
    assert t'.rows == t.rows - {id};
  }

  /**
   * The handlers of the schedule API over a shared repository. Each mutating
   * handler loads the record as an entity, checks the Paid guard, changes the
   * entity through its setters and writes it back.
   */
  class Controller {
    const repo: Repository

    constructor (repo: Repository)
      ensures this.repo == repo
    {
      this.repo := repo;
    }

    method ListarAgendamentos() returns (r: Response)
      ensures (repo.State(), r) == Handle(repo.State(), ListAll)
    {
      var all := repo.FindAll();
      r := Ok(Records(all));
    }

    method ListarAgendamentosPorId(id: int) returns (r: Response)
      ensures (repo.State(), r) == Handle(repo.State(), GetById(id))
    {
      var found := repo.FindById(id);
      if found.Some? {
        r := Ok(Record(found.value.Snapshot()));
      } else {
        r := NotFound;
      }
    }

    method ListarAgendamentosPorIdCliente(idCliente: int) returns (r: Response)
      ensures (repo.State(), r) == Handle(repo.State(), ListByCliente(idCliente))
    {
      var rows := repo.FindAllByIdCliente(idCliente);
      r := Ok(Records(rows));
    }

    method ListarPorStatusPagamento(status: PaymentStatus) returns (r: Response)
      ensures (repo.State(), r) == Handle(repo.State(), ListByStatus(status))
    {
      var rows := repo.FindAllByStatusPagamento(status);
      r := Ok(Records(rows));
    }

    method AgendarPagamento(body: Schedule, now: Timestamp) returns (r: Response)
      requires repo.Valid()
      modifies repo
      ensures repo.Valid()
      ensures (repo.State(), r) == Handle(old(repo.State()), Create(body, now))
    {
      var agendamento := new Entity.Load(body);
      agendamento.SetDataAgendamentoDoPagamento(Some(now));
      agendamento.SetStatusPagamento(Some(Pending));
      agendamento.SetFormaPagamento(None);
      var salvo := repo.Save(agendamento);
      r := Created(salvo.id.value);
    }

    method PagarAgendamento(id: int, formaPagamento: Option<string>, now: Timestamp) returns (r: Response)
      requires repo.Valid()
      modifies repo
      ensures repo.Valid()
      ensures (repo.State(), r) == Handle(old(repo.State()), Pay(id, formaPagamento, now))
    {
      var found := repo.FindById(id);
      if found.Some? {
        var agendamento := found.value;
        if agendamento.statusPagamento == Some(Paid) {
          return BadRequest(Details(agendamento.Snapshot()));
        }
        agendamento.SetFormaPagamento(formaPagamento);
        agendamento.SetDataDoPagamento(Some(now));
        agendamento.SetStatusPagamento(Some(Paid));
        var _ := repo.Save(agendamento);
        r := Ok(NoBody);
      } else {
        r := NotFound;
      }
    }

    method AtualizarDataHoraAgendamento(id: int, dataDoPagamento: Option<Timestamp>, now: Timestamp)
      returns (r: Response)
      requires repo.Valid()
      modifies repo
      ensures repo.Valid()
      ensures (repo.State(), r) == Handle(old(repo.State()), Reschedule(id, dataDoPagamento, now))
    {
      var found := repo.FindById(id);
      if found.Some? {
        var existente := found.value;
        if existente.statusPagamento == Some(Paid) {
          return BadRequest(Details(existente.Snapshot()));
        }
        existente.SetDataAgendamentoDoPagamento(Some(now));
        existente.SetDataDoPagamento(dataDoPagamento);
        var _ := repo.Save(existente);
        r := Ok(NewPaymentDate(existente.dataDoPagamento));
      } else {
        r := NotFound;
      }
    }

    method ExcluirAgendamento(id: int) returns (r: Response)
      requires repo.Valid()
      modifies repo
      ensures repo.Valid()
      ensures (repo.State(), r) == Handle(old(repo.State()), Remove(id))
    {
      var found := repo.FindById(id);
      if found.Some? {
        var agendamento := found.value;
        if agendamento.statusPagamento == Some(Paid) {
          return BadRequest(PaidNotDeletable);
        }
        repo.Delete(agendamento);
        r := Ok(NoBody);
      } else {
        r := NotFound;
      }
    }
  }
}
