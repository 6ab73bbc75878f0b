# Payment scheduler: a Dafny model

This project models the core of a small payment-scheduling service: a store of
payment schedules (`PaymentSchedulerEntity` rows kept by
`PaymentSchedulerRepository`) and the REST handlers of
`PaymentSchedulerController` that list, create, pay, reschedule and delete
them. A schedule is Pending until it is paid. Once Paid, the handlers refuse to
pay it again, reschedule it or delete it.

The model has four modules, one per source package plus one for call
sequences:

- `Entities` (entities.dfy): the status enumeration, the `Schedule` value
  (one table row) and the mutable `Entity` class with its setters. Each
  nullable Java field is an `Option`.
- `Repositories` (repositories.dfy): `Table`, the value of the store. It holds
  a `map<int, Schedule>` of rows and the identity counter `nextId`. Its
  queries (`FindById`, `FindAll`, `FindAllByIdCliente`,
  `FindAllByStatusPagamento`) and writes (`Save`, `Delete`) are functions.
  The class `Repository` holds the same rows and counter as fields. Its
  methods are proved against the `Table` functions. Following JPA, `FindById`
  returns a freshly loaded entity. `Save` inserts an entity without an id and
  gives it the generated id. It merges an entity with an id and returns a
  separate copy.
- `Controllers` (controllers.dfy): the response kinds (`Ok`, `Created`,
  `BadRequest`, `NotFound`), the function `Handle`, which says what each
  request does to the store and what it answers, and the class `Controller`.
  Each handler method of `Controller` loads an entity, applies the Paid guard,
  calls setters and saves. It is proved equal to `Handle`.
- `Lifecycle` (lifecycle.dfy): `Run` applies a sequence of requests. The
  lemmas here prove that Paid is terminal as long as no create body names a
  Paid record, and that a store invariant holds after any sequence of
  requests.

The clock (`LocalDateTime.now()`) is a `now` parameter of each handler. The
amount (`BigDecimal`) and timestamps are `int`s, because they are only stored
and echoed back.

The code does not enforce some rules one might expect of it:

- Pay stores whatever payment method the request carries, including none.
  So a Paid record need not have a payment method (`Lifecycle.PaidWithoutPaymentMethod`).
- Create does not clear the payment date the client sent
  (`Controllers.CreateInsertsPending`).
- Create saves the body with the id it was deserialised with. A body that
  names a stored record is merged over it, even a Paid one, which becomes
  Pending again (see "## Findings").
- Create answers with the id of the saved record, not with the full record.

## Model

| member | source | states |
|---|---|---|
| `Entities.Entity.Load` | src/main/java/com/flexpag/paymentscheduler/entities/PaymentSchedulerEntity.java:9-38 | an entity loaded from a row, or deserialised from a request body, shows exactly those field values, id included |
| `Entities.Entity.SetIdCliente` | src/main/java/com/flexpag/paymentscheduler/entities/PaymentSchedulerEntity.java:44-46 | the customer id becomes the value passed; every other field, the id included, is unchanged |
| `Entities.Entity.SetIdConta` | src/main/java/com/flexpag/paymentscheduler/entities/PaymentSchedulerEntity.java:52-54 | the account id becomes the value passed; nothing else changes |
| `Entities.Entity.SetDataAgendamentoDoPagamento` | src/main/java/com/flexpag/paymentscheduler/entities/PaymentSchedulerEntity.java:56-62 | the getter afterwards returns the value passed; nothing else changes |
| `Entities.Entity.SetDataDoPagamento` | src/main/java/com/flexpag/paymentscheduler/controllers/PaymentSchedulerController.java:103 | the payment date becomes the value passed; nothing else changes |
| `Entities.Entity.SetStatusPagamento` | src/main/java/com/flexpag/paymentscheduler/entities/PaymentSchedulerEntity.java:64-70 | the getter afterwards returns the status passed; nothing else changes |
| `Entities.Entity.SetFormaPagamento` | src/main/java/com/flexpag/paymentscheduler/entities/PaymentSchedulerEntity.java:72-78 | the getter afterwards returns the method passed, null included; nothing else changes |
| `Entities.Entity.SetDescricao` | src/main/java/com/flexpag/paymentscheduler/entities/PaymentSchedulerEntity.java:80-86 | the description becomes the value passed; nothing else changes |
| `Repositories.Table.FindById` | src/main/java/com/flexpag/paymentscheduler/repositories/PaymentSchedulerRepository.java:12 | present iff the key is stored; the row found carries that key as its id |
| `Repositories.Table.FindAll` | src/main/java/com/flexpag/paymentscheduler/controllers/PaymentSchedulerController.java:28 | every stored row is listed, and every listed row is the one stored under its own id |
| `Repositories.Table.FindAllByIdCliente` | src/main/java/com/flexpag/paymentscheduler/repositories/PaymentSchedulerRepository.java:14 | a stored row is listed iff its customer id equals the one asked for; nothing else is listed |
| `Repositories.Table.FindAllByStatusPagamento` | src/main/java/com/flexpag/paymentscheduler/repositories/PaymentSchedulerRepository.java:17 | a stored row is listed iff its status equals the one asked for; nothing else is listed |
| `Repositories.Table.Save` | src/main/java/com/flexpag/paymentscheduler/repositories/PaymentSchedulerRepository.java:12 | the saved row is stored under its id, which it always has afterwards, and the store's key invariant is kept |
| `Repositories.Table.Delete` | src/main/java/com/flexpag/paymentscheduler/repositories/PaymentSchedulerRepository.java:12 | exactly the record's key is removed; every other row and the counter are unchanged |
| `Repositories.EmptyTable` | src/main/java/com/flexpag/paymentscheduler/entities/PaymentSchedulerEntity.java:11-13 | the initial store is valid and lists nothing |
| `Repositories.SaveInsertsUnderFreshKey` | src/main/java/com/flexpag/paymentscheduler/entities/PaymentSchedulerEntity.java:11-13 | saving a row with no stored id inserts it under a generated key that no row used, leaving all other rows unchanged |
| `Repositories.SaveOverwritesOnlyThatKey` | src/main/java/com/flexpag/paymentscheduler/repositories/PaymentSchedulerRepository.java:12 | saving a row whose id is stored replaces that row only; the key set is unchanged |
| `Repositories.StatusQueriesDisjoint` | src/main/java/com/flexpag/paymentscheduler/repositories/PaymentSchedulerRepository.java:17 | the Pending listing and the Paid listing never share a record |
| `Repositories.FindAllOnePerRecord` | src/main/java/com/flexpag/paymentscheduler/controllers/PaymentSchedulerController.java:28 | findAll lists exactly as many records as there are stored keys (no two keys hold the same row) |
| `Repositories.Repository.constructor` | src/main/java/com/flexpag/paymentscheduler/controllers/PaymentSchedulerController.java:20-21 | a new store is empty and valid |
| `Repositories.Repository.FindById` | src/main/java/com/flexpag/paymentscheduler/repositories/PaymentSchedulerRepository.java:12 | returns a fresh entity holding the stored row iff the key is stored |
| `Repositories.Repository.FindAll` | src/main/java/com/flexpag/paymentscheduler/repositories/PaymentSchedulerRepository.java:12 | returns the rows `Table.FindAll` specifies |
| `Repositories.Repository.FindAllByIdCliente` | src/main/java/com/flexpag/paymentscheduler/repositories/PaymentSchedulerRepository.java:14 | returns the rows `Table.FindAllByIdCliente` specifies |
| `Repositories.Repository.FindAllByStatusPagamento` | src/main/java/com/flexpag/paymentscheduler/repositories/PaymentSchedulerRepository.java:17 | returns the rows `Table.FindAllByStatusPagamento` specifies |
| `Repositories.Repository.Save` | src/main/java/com/flexpag/paymentscheduler/repositories/PaymentSchedulerRepository.java:12 | the store becomes `Table.Save` of the entity; an entity without id gets the generated id and is returned itself, an entity with id is left as it was and a fresh copy is returned |
| `Repositories.Repository.Delete` | src/main/java/com/flexpag/paymentscheduler/repositories/PaymentSchedulerRepository.java:12 | the store becomes `Table.Delete` of the entity and stays valid |
| `Controllers.Controller.constructor` | src/main/java/com/flexpag/paymentscheduler/controllers/PaymentSchedulerController.java:20-21 | the controller works on the repository it is given |
| `Controllers.Controller.ListarAgendamentos` | src/main/java/com/flexpag/paymentscheduler/controllers/PaymentSchedulerController.java:24-30 | answers Ok with every stored record and changes nothing |
| `Controllers.Controller.ListarAgendamentosPorId` | src/main/java/com/flexpag/paymentscheduler/controllers/PaymentSchedulerController.java:33-42 | answers Ok with the stored record, or NotFound when the key is not stored |
| `Controllers.Controller.ListarAgendamentosPorIdCliente` | src/main/java/com/flexpag/paymentscheduler/controllers/PaymentSchedulerController.java:45-51 | answers Ok with the customer's records, possibly none |
| `Controllers.Controller.ListarPorStatusPagamento` | src/main/java/com/flexpag/paymentscheduler/controllers/PaymentSchedulerController.java:54-60 | answers Ok with the records of that status, possibly none |
| `Controllers.Controller.AgendarPagamento` | src/main/java/com/flexpag/paymentscheduler/controllers/PaymentSchedulerController.java:63-78 | the setter-and-save steps on the body as deserialised, its id included, leave the store and answer exactly as `Handle` specifies for create, and keep the store valid |
| `Controllers.Controller.PagarAgendamento` | src/main/java/com/flexpag/paymentscheduler/controllers/PaymentSchedulerController.java:80-114 | the lookup, Paid guard, setters and save leave the store and answer exactly as `Handle` specifies for pay |
| `Controllers.Controller.AtualizarDataHoraAgendamento` | src/main/java/com/flexpag/paymentscheduler/controllers/PaymentSchedulerController.java:116-147 | the lookup, Paid guard, setters and save leave the store and answer exactly as `Handle` specifies for reschedule |
| `Controllers.Controller.ExcluirAgendamento` | src/main/java/com/flexpag/paymentscheduler/controllers/PaymentSchedulerController.java:149-164 | the lookup, Paid guard and delete leave the store and answer exactly as `Handle` specifies for delete |
| `Controllers.Handle` | src/main/java/com/flexpag/paymentscheduler/controllers/PaymentSchedulerController.java:63-164 | specifies every handler: each request keeps the store's key invariant; reads, NotFound and BadRequest leave the store unchanged |
| `Controllers.CreateInsertsPending` | src/main/java/com/flexpag/paymentscheduler/controllers/PaymentSchedulerController.java:64-72 | create with a body naming no stored key inserts under a key no record used, with status Pending, no payment method and scheduling stamp `now` whatever the body held; it keeps the body's payment date, answers Created with that key and leaves other records unchanged |
| `Controllers.CreateOverwritesStored` | src/main/java/com/flexpag/paymentscheduler/controllers/PaymentSchedulerController.java:64-72 | create with a body naming a stored key replaces that record, whatever its status, by the body stamped `now`, Pending, with no payment method; answers Created with that key |
| `Controllers.CreateIntended` | src/main/java/com/flexpag/paymentscheduler/controllers/PaymentSchedulerController.java:64-72 | the corrected create ignores the body's id: it always inserts under a key no record used and leaves every stored record unchanged |
| `Controllers.MissingIdNotFound` | src/main/java/com/flexpag/paymentscheduler/controllers/PaymentSchedulerController.java:108-110 | pay, reschedule, delete and lookup of a key with no record answer NotFound and leave the store unchanged |
| `Controllers.PayPaidUnchanged` | src/main/java/com/flexpag/paymentscheduler/controllers/PaymentSchedulerController.java:91-100 | pay of a Paid record answers BadRequest with its id, payment date, status, amount and method, and does not save |
| `Controllers.PayPendingEffect` | src/main/java/com/flexpag/paymentscheduler/controllers/PaymentSchedulerController.java:102-106 | pay of a record that is not Paid sets status Paid, the requested method (possibly none) and payment date `now`; no other field or record changes; answers Ok |
| `Controllers.SecondPayRejected` | src/main/java/com/flexpag/paymentscheduler/controllers/PaymentSchedulerController.java:85-106 | after one pay of a stored record, a second pay answers BadRequest and changes nothing |
| `Controllers.ReschedulePaidUnchanged` | src/main/java/com/flexpag/paymentscheduler/controllers/PaymentSchedulerController.java:126-135 | reschedule of a Paid record answers BadRequest with its details and leaves its payment date unchanged |
| `Controllers.ReschedulePendingEffect` | src/main/java/com/flexpag/paymentscheduler/controllers/PaymentSchedulerController.java:137-140 | reschedule of a record that is not Paid stamps it `now` and sets the supplied payment date, keeping its status and all else; answers with the new date |
| `Controllers.DeletePaidKeepsRecord` | src/main/java/com/flexpag/paymentscheduler/controllers/PaymentSchedulerController.java:151-157 | delete of a Paid record answers BadRequest, changes nothing, and a later lookup still finds the record |
| `Controllers.DeletePendingRemovesKey` | src/main/java/com/flexpag/paymentscheduler/controllers/PaymentSchedulerController.java:151-160 | delete of a record that is not Paid removes exactly its key; a later lookup answers NotFound |
| `Lifecycle.HandleKeepsPaid` | src/main/java/com/flexpag/paymentscheduler/controllers/PaymentSchedulerController.java:63-164 | one request leaves every Paid record stored and unchanged iff it is not a create whose body names a Paid record; such a create makes that record not Paid |
| `Lifecycle.PaidIsTerminal` | src/main/java/com/flexpag/paymentscheduler/controllers/PaymentSchedulerController.java:63-164 | after any sequence of requests in which no create body names a Paid record, every record that was Paid is still stored with all fields unchanged, so it never returns to Pending |
| `Lifecycle.NoBodyIdNeverCreatesOverPaid` | src/main/java/com/flexpag/paymentscheduler/controllers/PaymentSchedulerController.java:64-71 | a sequence whose create bodies carry no id never creates over a Paid record, so `PaidIsTerminal` applies to it |
| `Lifecycle.PaidRecordResetByCreate` | src/main/java/com/flexpag/paymentscheduler/controllers/PaymentSchedulerController.java:64-71 | as written, create record 1, pay it, then create with a body carrying id 1: the Paid record becomes Pending again |
| `Lifecycle.CreateIntendedKeepsPaid` | src/main/java/com/flexpag/paymentscheduler/controllers/PaymentSchedulerController.java:64-71 | the corrected create leaves every Paid record stored and unchanged and inserts a Pending record |
| `Lifecycle.HandleKeepsConsistent` | src/main/java/com/flexpag/paymentscheduler/controllers/PaymentSchedulerController.java:66-104 | one request keeps every record's status set and every Paid record's payment date set |
| `Lifecycle.RunKeepsConsistent` | src/main/java/com/flexpag/paymentscheduler/controllers/PaymentSchedulerController.java:63-164 | from a consistent store, the same invariant holds after any sequence of requests |
| `Lifecycle.ReachableIsConsistent` | src/main/java/com/flexpag/paymentscheduler/controllers/PaymentSchedulerController.java:63-164 | the empty store is consistent, and so is every store reached from it by any sequence of requests |
| `Lifecycle.StatusQueriesPartition` | src/main/java/com/flexpag/paymentscheduler/repositories/PaymentSchedulerRepository.java:17 | in a consistent store every record is in exactly one of the Pending and Paid listings |
| `Lifecycle.PaidWithoutPaymentMethod` | src/main/java/com/flexpag/paymentscheduler/controllers/PaymentSchedulerController.java:102-104 | create followed by pay with no method gives a Paid record with no payment method |
| `Lifecycle.ScenarioCreatePayDelete` | src/main/java/com/flexpag/paymentscheduler/controllers/PaymentSchedulerController.java:63-164 | create gives key 1 and Pending, pay by card gives Paid with that method, delete is refused and the lookup still finds the Paid record |

## Findings

| source | as written | input that shows it | evidently intended | confidence | as-written member | corrected member |
|---|---|---|---|---|---|---|
| src/main/java/com/flexpag/paymentscheduler/controllers/PaymentSchedulerController.java:64-71 | create resets only the stamp, status and payment method, then saves the body with its id, so save merges over the stored record with that id | create record 1, pay it, then create with a body carrying `"id": 1`: record 1 is Pending again | create always inserts a new record under a generated key, so a Paid record is never reset | medium, not executed (rests on the JSON mapper filling the private id through its getter) | `Lifecycle.PaidRecordResetByCreate` | `Controllers.CreateIntended` |

The handlers keep the code as written. `Controllers.CreateIntended` and `Lifecycle.CreateIntendedKeepsPaid` give the corrected create. `Lifecycle.PaidIsTerminal` states the hypothesis under which the code as written keeps Paid terminal.

## Left out

- HTTP routing, `ResponseEntity` construction and the message texts: responses are the kinds `Ok`, `Created`, `BadRequest`, `NotFound` with a structured body.
- Conversion of the status path variable: an invalid status is rejected by the web framework before the handler runs, so `ListarPorStatusPagamento` takes a `PaymentStatus`.
- JSON deserialisation of request bodies: a body is a `Schedule` value, id included, since the deserialiser fills the private `id` through its public getter; the pay body is reduced to its `formaPagamento` entry, the reschedule body to its `DataDoPagamento`.
- The `catch (Exception e)` branches of create, pay and reschedule: they answer storage I/O failures, which the in-memory store does not have.
- The database, JPA mappings and column names, and dependency injection: the store is an in-memory map and the controller receives it in its constructor. For `save` of an entity whose id is not stored, the model inserts under a fresh key, as a merge of an entity with a generated id does.
- Concurrent requests on the same id: every handler runs to completion before the next.
- Order of listings: listings are sets of records; by `Repositories.FindAllOnePerRecord` no two stored keys hold the same record, so nothing is lost.
- `BigDecimal` amounts and `LocalDateTime` values are `int`s, only stored and compared for equality.
- The getters are plain field reads of `Entity`. The accessors that the controller uses but the entity file does not show (`getId`, `getValor`, `getDataDoPagamento`, `setDataDoPagamento`) are plain fields of the record too.
