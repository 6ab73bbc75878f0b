/**
 * The payment-schedule record: its status enumeration, the value stored in a
 * table row, and the mutable entity object that handlers change through setters.
 *
 * Every field of the Java entity is a nullable reference (Long, BigDecimal,
 * LocalDateTime, String, the enum), so each is an Option here; None is null.
 */
module Entities {

  datatype Option<+T> = None | Some(value: T)

  /** The two values of the payment status enumeration. */
  datatype PaymentStatus = Pending | Paid

  /** A point in time (LocalDateTime); only stored and compared for equality. */
  type Timestamp = int

  /** A monetary amount (BigDecimal); only stored and echoed back. */
  type Amount = int

  /** The value of one schedule: what a table row holds and what an entity shows. */
  datatype Schedule = Schedule(
    id: Option<int>,
    idCliente: Option<int>,
    idConta: Option<int>,
    valor: Option<Amount>,
    dataAgendamentoDoPagamento: Option<Timestamp>,
    dataDoPagamento: Option<Timestamp>,
    statusPagamento: Option<PaymentStatus>,
    formaPagamento: Option<string>,
    descricao: Option<string>)

  /** True iff the schedule's status is Paid (a null status is not Paid). */
  predicate IsPaid(s: Schedule) {
    s.statusPagamento == Some(Paid)
  }

  /**
   * The entity object. Getters are plain field reads; each setter writes its
   * own field and nothing else. There is no setter for `id`: the repository
   * assigns it when it inserts the entity, and a deserialised request body
   * may already carry one.
   */
  class Entity {
    var id: Option<int>
    var idCliente: Option<int>
    var idConta: Option<int>
    var valor: Option<Amount>
    var dataAgendamentoDoPagamento: Option<Timestamp>
    var dataDoPagamento: Option<Timestamp>
    var statusPagamento: Option<PaymentStatus>
    var formaPagamento: Option<string>
    var descricao: Option<string>

    /** The current field values of this object. */
    function Snapshot(): Schedule
      reads this
    {
      Schedule(id, idCliente, idConta, valor, dataAgendamentoDoPagamento,
               dataDoPagamento, statusPagamento, formaPagamento, descricao)
    }

    /**
     * An entity holding the given field values: a row loaded from the store,
     * or a request body as deserialised, its id included.
     */
    constructor Load(row: Schedule)
      ensures Snapshot() == row
    {
      id := row.id;
      idCliente := row.idCliente;
      idConta := row.idConta;
      valor := row.valor;
      dataAgendamentoDoPagamento := row.dataAgendamentoDoPagamento;
      dataDoPagamento := row.dataDoPagamento;
      statusPagamento := row.statusPagamento;
      formaPagamento := row.formaPagamento;
      descricao := row.descricao;
    }

    method SetIdCliente(v: Option<int>)
      modifies this
      ensures Snapshot() == old(Snapshot()).(idCliente := v)
    {
      idCliente := v;
    }

    method SetIdConta(v: Option<int>)
      modifies this
      ensures Snapshot() == old(Snapshot()).(idConta := v)
    {
      idConta := v;
    }

    method SetDataAgendamentoDoPagamento(v: Option<Timestamp>)
      modifies this
      ensures Snapshot() == old(Snapshot()).(dataAgendamentoDoPagamento := v)
    {
      dataAgendamentoDoPagamento := v;
    }

    method SetDataDoPagamento(v: Option<Timestamp>)
      modifies this
      ensures Snapshot() == old(Snapshot()).(dataDoPagamento := v)
    {
      dataDoPagamento := v;
    }

    method SetStatusPagamento(v: Option<PaymentStatus>)
      modifies this
      ensures Snapshot() == old(Snapshot()).(statusPagamento := v)
    {
      statusPagamento := v;
    }

    method SetFormaPagamento(v: Option<string>)
      modifies this
      ensures Snapshot() == old(Snapshot()).(formaPagamento := v)
    {
      formaPagamento := v;
    }

    method SetDescricao(v: Option<string>)
      modifies this
      ensures Snapshot() == old(Snapshot()).(descricao := v)
    {
      descricao := v;
    }
  }
}
