/**
 * The lifecycle of a schedule across any sequence of API calls:
 * Pending -> Paid, with Paid terminal.
 */
module Lifecycle {
  import opened Entities
  import opened Repositories
  import opened Controllers

  /** The store after handling `reqs` one after another, starting from `t`. */
  function Run(t: Table, reqs: seq<Request>): Table
    decreases |reqs|
  {
    if reqs == [] then t else Run(Handle(t, reqs[0]).0, reqs[1..])
  }

  /** Every record that is Paid in `t` is still stored, unchanged, in `t'`. */
  ghost predicate PaidFrozen(t: Table, t': Table) {
    forall k :: k in t.rows && IsPaid(t.rows[k]) ==> k in t'.rows && t'.rows[k] == t.rows[k]
  }

  /**
   * The store invariant the handlers keep: keys are well formed, every record
   * has a status, and a Paid record has a payment date.
   */
  predicate Consistent(t: Table) {
    && t.Valid()
    && forall k :: k in t.rows ==>
         && t.rows[k].statusPagamento.Some?
         && (IsPaid(t.rows[k]) ==> t.rows[k].dataDoPagamento.Some?)
  }

  /** True iff `req` is a create whose body names a stored record that is Paid. */
  predicate CreateOverPaid(t: Table, req: Request) {
    req.Create? && NamesStoredKey(t, req.body) && IsPaid(t.rows[req.body.id.value])
  }

  /**
   * One request leaves every Paid record stored and unchanged exactly when
   * it is not a create whose body names a Paid record; such a create resets
   * that record to Pending.
   */
  lemma HandleKeepsPaid(t: Table, req: Request)
    requires t.Valid()
    ensures PaidFrozen(t, Handle(t, req).0) <==> !CreateOverPaid(t, req)
    ensures CreateOverPaid(t, req) ==> !IsPaid(Handle(t, req).0.rows[req.body.id.value])
  {
    match req {
      case Create(body, now) =>
        if NamesStoredKey(t, body) {
          CreateOverwritesStored(t, body, now);
        } else {
          CreateInsertsPending(t, body, now);
        }
      case Pay(id, forma, now) =>
        if id in t.rows && !IsPaid(t.rows[id]) { PayPendingEffect(t, id, forma, now); }
      case Reschedule(id, date, now) =>
        if id in t.rows && !IsPaid(t.rows[id]) { ReschedulePendingEffect(t, id, date, now); }
      case Remove(id) =>
        if id in t.rows && !IsPaid(t.rows[id]) { DeletePendingRemovesKey(t, id); }
      case _ =>
    }
  }

  /** No create in `reqs`, handled in turn from `t`, names a record that is Paid at that moment. */
  predicate NeverCreatesOverPaid(t: Table, reqs: seq<Request>)
    decreases |reqs|
  {
    reqs == [] || (!CreateOverPaid(t, reqs[0]) && NeverCreatesOverPaid(Handle(t, reqs[0]).0, reqs[1..]))
  }

  /**
   * Paid is terminal as long as no create body names a Paid record: no
   * sequence of such calls turns a Paid record back to Pending, changes any
   * of its fields, or deletes it.
   */
  lemma {:induction false} PaidIsTerminal(t: Table, reqs: seq<Request>)
    requires t.Valid()
    requires NeverCreatesOverPaid(t, reqs)
    ensures Run(t, reqs).Valid()
    ensures PaidFrozen(t, Run(t, reqs))
    decreases |reqs|
  {
    if reqs != [] {
      var t1 := Handle(t, reqs[0]).0;
      HandleKeepsPaid(t, reqs[0]);
      PaidIsTerminal(t1, reqs[1..]);
    }
  }

  /** Clients that never send an id in a create body never reach a Paid record through create. */
  lemma {:induction false} NoBodyIdNeverCreatesOverPaid(t: Table, reqs: seq<Request>)
    requires forall i :: 0 <= i < |reqs| && reqs[i].Create? ==> reqs[i].body.id.None?
    ensures NeverCreatesOverPaid(t, reqs)
    decreases |reqs|
  {
    if reqs != [] {
      assert forall i :: 0 <= i < |reqs[1..]| ==> reqs[1..][i] == reqs[i + 1];
      NoBodyIdNeverCreatesOverPaid(Handle(t, reqs[0]).0, reqs[1..]);
    }
  }

  /**
   * As written, create resets a Paid record: create record 1, pay it, then
   * create again with a body carrying id 1.
   */
  lemma PaidRecordResetByCreate(body: Schedule)
    ensures var t2 := Run(EmptyTable(), [Create(body, 1), Pay(1, Some("pix"), 2)]);
      && 1 in t2.rows && IsPaid(t2.rows[1])
      && var t3 := Handle(t2, Create(body.(id := Some(1)), 3)).0;
      && t3.rows[1].statusPagamento == Some(Pending)
      && !PaidFrozen(t2, t3)
  {
    var t1 := Handle(EmptyTable(), Create(body, 1)).0;
    assert t1.rows == map[1 := NewSchedule(body, 1).(id := Some(1))];
    var t2 := Handle(t1, Pay(1, Some("pix"), 2)).0;
    assert [Create(body, 1), Pay(1, Some("pix"), 2)][1..] == [Pay(1, Some("pix"), 2)];
    assert Run(t1, [Pay(1, Some("pix"), 2)]) == t2;
    assert IsPaid(t2.rows[1]);
    HandleKeepsPaid(t2, Create(body.(id := Some(1)), 3));
  }

  /** The corrected create never touches a stored record, so it keeps every Paid one. */
  lemma CreateIntendedKeepsPaid(t: Table, body: Schedule, now: Timestamp)
    requires t.Valid()
    ensures PaidFrozen(t, CreateIntended(t, body, now).0)
    ensures CreateIntended(t, body, now).0.rows[CreateIntended(t, body, now).1.createdId].statusPagamento == Some(Pending)
  {
  }

  /** One request keeps the store consistent. */
  lemma HandleKeepsConsistent(t: Table, req: Request)
    requires Consistent(t)
    ensures Consistent(Handle(t, req).0)
  {
    match req {
      case Create(body, now) =>
        if NamesStoredKey(t, body) {
          CreateOverwritesStored(t, body, now);
        } else {
          CreateInsertsPending(t, body, now);
        }
      case Pay(id, forma, now) =>
        if id in t.rows && !IsPaid(t.rows[id]) { PayPendingEffect(t, id, forma, now); }
      case Reschedule(id, date, now) =>
        if id in t.rows && !IsPaid(t.rows[id]) { ReschedulePendingEffect(t, id, date, now); }
      case Remove(id) =>
        if id in t.rows && !IsPaid(t.rows[id]) { DeletePendingRemovesKey(t, id); }
      case _ =>
    }
  }

  /** From a consistent store, any sequence of requests keeps a status on each record and a payment date on each Paid one. */
  lemma {:induction false} RunKeepsConsistent(t: Table, reqs: seq<Request>)
    requires Consistent(t)
    ensures Consistent(Run(t, reqs))
    decreases |reqs|
  {
    if reqs != [] {
      HandleKeepsConsistent(t, reqs[0]);
      RunKeepsConsistent(Handle(t, reqs[0]).0, reqs[1..]);
    }
  }

  /** Every store reachable from the empty one is consistent. */
  lemma ReachableIsConsistent(reqs: seq<Request>)
    ensures Consistent(EmptyTable())
    ensures Consistent(Run(EmptyTable(), reqs))
  {
    RunKeepsConsistent(EmptyTable(), reqs);
  }

  /** In a consistent store the Pending and Paid listings split the full listing between them. */
  lemma StatusQueriesPartition(t: Table)
    requires Consistent(t)
    ensures t.FindAll() == t.FindAllByStatusPagamento(Pending) + t.FindAllByStatusPagamento(Paid)
    ensures t.FindAllByStatusPagamento(Pending) !! t.FindAllByStatusPagamento(Paid)
  {
    forall s | s in t.FindAll()
      ensures s in t.FindAllByStatusPagamento(Pending) + t.FindAllByStatusPagamento(Paid)
    {
      var k :| k in t.rows && t.rows[k] == s;
      assert t.rows[k].statusPagamento.Some?;
      match t.rows[k].statusPagamento.value {
        case Pending => assert s in t.FindAllByStatusPagamento(Pending);
        case Paid => assert s in t.FindAllByStatusPagamento(Paid);
      }
    }
  }

  /**
   * A Paid record need not have a payment method: pay stores whatever the
   * request sent, including nothing.
   */
  lemma PaidWithoutPaymentMethod(body: Schedule)
    ensures var t := Run(EmptyTable(), [Create(body, 10), Pay(1, None, 20)]);
      1 in t.rows && IsPaid(t.rows[1]) && t.rows[1].formaPagamento == None
  {
    var t1 := Handle(EmptyTable(), Create(body, 10)).0;
    assert t1.rows == map[1 := NewSchedule(body, 10).(id := Some(1))];
    var t2 := Handle(t1, Pay(1, None, 20)).0;
    assert [Create(body, 10), Pay(1, None, 20)][1..] == [Pay(1, None, 20)];
    assert Run(t1, [Pay(1, None, 20)]) == t2;
  }

  /**
   * A record created with customer 7 and amount 100 gets key 1 and status
   * Pending; paying it by credit card makes it Paid; deleting it is then
   * refused and the lookup still returns the Paid record.
   */
  lemma ScenarioCreatePayDelete(body: Schedule, card: string)
    requires body.idCliente == Some(7) && body.valor == Some(100)
    ensures var (t1, r1) := Handle(EmptyTable(), Create(body, 1));
      && r1 == Created(1) && t1.rows[1].statusPagamento == Some(Pending)
      && var (t2, r2) := Handle(t1, Pay(1, Some(card), 2));
      && r2 == Ok(NoBody) && IsPaid(t2.rows[1]) && t2.rows[1].formaPagamento == Some(card)
      && var (t3, r3) := Handle(t2, Remove(1));
      && r3 == BadRequest(PaidNotDeletable) && t3 == t2
      && Handle(t3, GetById(1)).1 == Ok(Record(t2.rows[1]))
  {
  }
}
