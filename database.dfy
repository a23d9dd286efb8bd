/**
 * The persisted state the backend works on, and the logs that stand for its
 * outbound effects: realtime events emitted to the socket clients, commands
 * published to the broker and attempts of the e-mail collaborator.
 */
module Database {
  import opened Wrappers
  import opened OrderModel
  import opened MachineModel
  import opened NotificationModel

  /** One realtime emission, by event name; `orderTag` is the order code as the device sent it. */
  datatype Event =
    | MachineUpdate(machineId: string, status: MachineStatus, realtime: Realtime, orderTag: Option<string>)
    | OrderUpdate(orderCode: string, progress: int, state: string, mode: Option<string>)
    | NewNotification(notification: Notification)
    | MachineError(machineId: string, errorType: string, errorMessage: Option<string>, orderTag: Option<string>, timestamp: nat)
    | OrderCompleted(orderCode: string, machineId: string)
    | MachineOnline(machineId: string)
    | MachineUpdated(machine: Machine)

  /** One message published to the broker: its topic and its JSON object as key/value pairs. */
  datatype Published = Published(topic: string, payload: map<string, string>)

  datatype MailKind = OrderCreatedMail | OrderCompletedMail

  /** One call of the e-mail collaborator and the boolean it returned. */
  datatype MailAttempt = MailAttempt(kind: MailKind, orderCode: string, delivered: bool)

  /** An HTTP route's outcome (200/201, 400, 404, 500). */
  datatype Reply = Ok | BadRequest | NotFound | ServerError

  /** The number of attempts of one kind for one order in a log. */
  function Attempts(log: seq<MailAttempt>, kind: MailKind, code: string): nat {
    if log == [] then 0
    else Attempts(log[..|log| - 1], kind, code)
         + (if log[|log| - 1].kind == kind && log[|log| - 1].orderCode == code then 1 else 0)
  }

  /** Appending one attempt raises exactly its own count by one. */
  lemma AttemptsAppend(log: seq<MailAttempt>, a: MailAttempt, kind: MailKind, code: string)
    ensures Attempts(log + [a], kind, code)
            == Attempts(log, kind, code) + (if a.kind == kind && a.orderCode == code then 1 else 0)
  {
    assert (log + [a])[..|log|] == log;
  }

  /** Every machine is filed under its own id. */
  ghost predicate MachinesKeyed(machines: map<string, Machine>) {
    forall id :: id in machines ==> machines[id].id == id
  }

  /** Every order is filed under its own code, and that code is a generated one. */
  ghost predicate OrdersKeyed(orders: map<string, Order>) {
    forall c :: c in orders ==> orders[c].orderCode == c && IsOrderCode(c)
  }

  /**
   * Each stored order had exactly one creation mail attempt, and exactly one completion
   * attempt if its `completed` guard is set (none otherwise); other codes have none.
   */
  ghost predicate MailConsistent(orders: map<string, Order>, outbox: seq<MailAttempt>) {
    && (forall c :: Attempts(outbox, OrderCreatedMail, c) == (if c in orders then 1 else 0))
    && (forall c :: Attempts(outbox, OrderCompletedMail, c)
                    == (if c in orders && orders[c].emailSent.completed then 1 else 0))
  }

  /** Notification ids are distinct and below the next one to hand out. */
  ghost predicate IdsFresh(ns: seq<Notification>, nextId: nat) {
    && (forall i :: 0 <= i < |ns| ==> ns[i].id < nextId)
    && (forall i, j :: 0 <= i < j < |ns| ==> ns[i].id != ns[j].id)
  }

  lemma MachinesKeyedUpdate(machines: map<string, Machine>, id: string, m: Machine)
    requires MachinesKeyed(machines) && m.id == id
    ensures MachinesKeyed(machines[id := m])
  {
  }

  /** Rewriting a stored order without touching its code or its guards keeps the invariants. */
  lemma OrderRewriteKeepsInvariants(orders: map<string, Order>, outbox: seq<MailAttempt>, code: string, o: Order)
    requires OrdersKeyed(orders) && MailConsistent(orders, outbox)
    requires code in orders && o.orderCode == code && o.emailSent == orders[code].emailSent
    ensures OrdersKeyed(orders[code := o]) && MailConsistent(orders[code := o], outbox)
  {
  }

  /** Setting a clear completion guard together with one logged completion attempt keeps the mail counts. */
  lemma {:induction false} CompletionKeepsMailConsistent(orders: map<string, Order>, outbox: seq<MailAttempt>, code: string, o: Order, delivered: bool)
    requires MailConsistent(orders, outbox)
    requires code in orders && !orders[code].emailSent.completed
    requires o.emailSent == EmailSent(orders[code].emailSent.created, true)
    ensures MailConsistent(orders[code := o], outbox + [MailAttempt(OrderCompletedMail, code, delivered)])
  {
    var a := MailAttempt(OrderCompletedMail, code, delivered);
    forall c ensures Attempts(outbox + [a], OrderCompletedMail, c) == Attempts(outbox, OrderCompletedMail, c) + (if c == code then 1 else 0)
    {
      AttemptsAppend(outbox, a, OrderCompletedMail, c);
    }
    forall c ensures Attempts(outbox + [a], OrderCreatedMail, c) == Attempts(outbox, OrderCreatedMail, c)
    {
      AttemptsAppend(outbox, a, OrderCreatedMail, c);
    }
  }

  /** Filing a new order under a fresh code together with its one creation attempt keeps the mail counts. */
  lemma {:induction false} CreationKeepsMailConsistent(orders: map<string, Order>, outbox: seq<MailAttempt>, code: string, o: Order, delivered: bool)
    requires MailConsistent(orders, outbox)
    requires code !in orders && !o.emailSent.completed
    ensures MailConsistent(orders[code := o], outbox + [MailAttempt(OrderCreatedMail, code, delivered)])
  {
    var a := MailAttempt(OrderCreatedMail, code, delivered);
    forall c ensures Attempts(outbox + [a], OrderCreatedMail, c) == Attempts(outbox, OrderCreatedMail, c) + (if c == code then 1 else 0)
    {
      AttemptsAppend(outbox, a, OrderCreatedMail, c);
    }
    forall c ensures Attempts(outbox + [a], OrderCompletedMail, c) == Attempts(outbox, OrderCompletedMail, c)
    {
      AttemptsAppend(outbox, a, OrderCompletedMail, c);
    }
  }

  /** The completion mail is attempted at most once per order, however often DONE is redelivered. */
  lemma CompletionMailAtMostOnce(orders: map<string, Order>, outbox: seq<MailAttempt>, code: string)
    requires MailConsistent(orders, outbox)
    ensures Attempts(outbox, OrderCompletedMail, code) <= 1
    ensures Attempts(outbox, OrderCompletedMail, code) == 1 <==> code in orders && orders[code].emailSent.completed
  {
  }

  class Store {
    var machines: map<string, Machine>
    var orders: map<string, Order>
    var notifications: seq<Notification>
    var nextNotificationId: nat
    var events: seq<Event>
    var commands: seq<Published>
    var outbox: seq<MailAttempt>

    /** The store's invariant: the four conditions above on its current contents. */
    ghost predicate Valid()
      reads this
    {
      MachinesKeyed(machines) && OrdersKeyed(orders) && MailConsistent(orders, outbox)
      && IdsFresh(notifications, nextNotificationId)
    }

    /** An empty database with no emissions yet. */
    constructor ()
      ensures Valid()
      ensures machines == map[] && orders == map[] && notifications == [] && nextNotificationId == 0
      ensures events == [] && commands == [] && outbox == []
    {
      machines, orders, notifications, nextNotificationId := map[], map[], [], 0;
      events, commands, outbox := [], [], [];
    }
  }
}
