/**
 * The telemetry engine: routes inbound broker messages by topic, turns status
 * reports into machine and order state, records error reports as
 * notifications, handles the DONE and ONLINE lifecycle events and publishes
 * commands to a machine's command topic.
 */
module MqttService {
  import opened Wrappers
  import opened Strings
  import opened OrderModel
  import opened MachineModel
  import opened NotificationModel
  import opened Database

  /**
   * A parsed JSON payload with the fields the three handlers read. An Option field is
   * one the device may leave out (None for absent or null).
   */
  datatype Payload = Payload(
    machineId: string,
    state: string,
    progress: int,
    waterLevel: int,
    mode: Option<string>,
    orderCode: Option<string>,
    doorOpen: bool,
    errorCode: Option<string>,
    errorType: string,
    errorMessage: Option<string>,
    event: string)

  /** What `JSON.parse` made of the raw bytes. */
  datatype Message = Malformed | Json(payload: Payload)

  datatype Route = ToStatus | ToError | ToEvent | Ignored

  const ErrorsTopic: string := "laundry/errors"
  const EventsTopic: string := "laundry/events"

  /** Topic classification: any topic containing "/status" first, then the two exact topics. */
  function RouteOf(topic: string): (r: Route)
    ensures r == ToStatus <==> Contains(topic, "/status")
    ensures r == ToError <==> !Contains(topic, "/status") && topic == ErrorsTopic
    ensures r == ToEvent <==> !Contains(topic, "/status") && topic == EventsTopic
    ensures r == Ignored <==> !Contains(topic, "/status") && topic != ErrorsTopic && topic != EventsTopic
  {
    if Contains(topic, "/status") then ToStatus
    else if topic == ErrorsTopic then ToError
    else if topic == EventsTopic then ToEvent
    else Ignored
  }

  /** Every per-machine status topic `laundry/<id>/status` goes to the status handler. */
  lemma StatusTopicRoutes(id: string)
    ensures RouteOf("laundry/" + id + "/status") == ToStatus
  {
    var t := "laundry/" + id + "/status";
    assert OccursAt(t, "/status", |t| - 7) by {
      assert t[|t| - 7..] == "/status";
    }
    ContainsIffOccurs(t, "/status");
  }

  /** The shared error topic holds no "/status". */
  lemma ErrorsTopicHasNoStatus()
    ensures !Contains(ErrorsTopic, "/status")
  {
    var e := "errors";
    assert e[0] != 's' && forall k :: 0 <= k < 6 ==> e[k] != '/';
    NoStatusIn(e);
    assert ErrorsTopic == "laundry/" + e;
  }

  /** The shared event topic holds no "/status". */
  lemma EventsTopicHasNoStatus()
    ensures !Contains(EventsTopic, "/status")
  {
    var v := "events";
    assert v[0] != 's' && forall k :: 0 <= k < 6 ==> v[k] != '/';
    NoStatusIn(v);
    assert EventsTopic == "laundry/" + v;
  }

  /** The shared error and event topics reach their own handlers. */
  lemma SharedTopicsRoute()
    ensures RouteOf(ErrorsTopic) == ToError
    ensures RouteOf(EventsTopic) == ToEvent
  {
    ErrorsTopicHasNoStatus();
    EventsTopicHasNoStatus();
  }

  /** A topic `laundry/<tail>` with a six-character tail that has no '/' and does not start with 's' holds no "/status". */
  lemma NoStatusIn(tail: string)
    requires |tail| == 6 && tail[0] != 's'
    requires forall k :: 0 <= k < 6 ==> tail[k] != '/'
    ensures !Contains("laundry/" + tail, "/status")
  {
    var t := "laundry/" + tail;
    ContainsIffOccurs(t, "/status");
    forall i: nat ensures !OccursAt(t, "/status", i) {
      if i + 7 <= |t| {
        assert t[i] != '/' || t[i + 1] != 's' by {
          if i < 7 {
            assert t[i] == "laundry/"[i];
          } else {
            assert t[i + 1] == tail[0];
          }
        }
        assert t[i..i + 7][0] == t[i] && t[i..i + 7][1] == t[i + 1];
      }
    }
  }

  /** The device state reported in a status message, as a machine status. */
  function StatusOf(state: string): (s: MachineStatus)
    ensures s == OFFLINE <==> state == "POWER_OFF"
    ensures s == AVAILABLE <==> state == "READY" || state == "DONE"
    ensures s == MachineStatus.ERROR <==> state == "ERROR_DOOR" || state == "ERROR_WATER"
    ensures s == RUNNING <==> state !in {"POWER_OFF", "READY", "ERROR_DOOR", "ERROR_WATER", "DONE"}
    ensures s != MAINTENANCE
  {
    if state == "POWER_OFF" then OFFLINE
    else if state == "READY" then AVAILABLE
    else if state == "ERROR_DOOR" || state == "ERROR_WATER" then MachineStatus.ERROR
    else if state != "DONE" then RUNNING
    else AVAILABLE
  }

  /** The name given to a machine first seen in a status message. */
  function ProvisionedName(id: string): (name: string)
    ensures |name| >= 5 && name[..5] == "Máy #"
  {
    "Máy #" + ReplaceFirst(id, "MACHINE_", "")
  }

  /** An id without "MACHINE_" is kept whole after "Máy #". */
  lemma ProvisionedNameOfOtherId(id: string)
    requires !Contains(id, "MACHINE_")
    ensures ProvisionedName(id) == "Máy #" + id
  {
    ReplaceFirstWithoutOccurrence(id, "MACHINE_", "");
  }

  /** For "MACHINE_<n>" ids the provisioned name and the schema's default name agree. */
  lemma ProvisionedNameIsDefaultName(n: string)
    ensures ProvisionedName("MACHINE_" + n) == DefaultName("MACHINE_" + n) == "Máy #" + n
  {
    DefaultNameOfNumberedId(n);
    ReplaceFirstOfPrefixed("MACHINE_", n, "");
    assert "" + n == n;
  }

  /** The realtime snapshot a status message stands for, stamped with the receipt time. */
  function SnapshotOf(p: Payload, now: nat): (r: Realtime)
    ensures r.state == p.state && r.progress == p.progress && r.waterLevel == p.waterLevel
    ensures r.mode == p.mode && r.doorOpen == p.doorOpen
    ensures r.errorCode == OrNull(p.errorCode) && r.lastUpdate == now
  {
    Realtime(p.state, p.progress, p.waterLevel, p.mode, p.doorOpen, OrNull(p.errorCode), now)
  }

  /** A status message overwrites status, current order and snapshot; identity and stats are kept. */
  function ApplyStatus(m: Machine, p: Payload, now: nat): (r: Machine)
    ensures r.id == m.id && r.name == m.name && r.stats == m.stats && r.createdAt == m.createdAt
    ensures r.status == StatusOf(p.state)
    ensures r.currentOrderCode == OrNull(p.orderCode)
    ensures r.realtime == SnapshotOf(p, now)
  {
    m.(status := StatusOf(p.state), currentOrderCode := OrNull(p.orderCode), realtime := SnapshotOf(p, now))
  }

  /** Replaying a status message gives the same machine, apart from the receipt time. */
  lemma ReplayStatus(m: Machine, p: Payload, t1: nat, t2: nat)
    ensures ApplyStatus(ApplyStatus(m, p, t1), p, t2) == ApplyStatus(m, p, t2)
    ensures ApplyStatus(m, p, t1) == ApplyStatus(m, p, t2).(realtime := SnapshotOf(p, t1))
  {
  }

  /** The order mirror of a status message; an absent mode is dropped from the update. */
  function MirrorStatus(o: Order, p: Payload): (r: Order)
    ensures r.status == DONE <==> p.state == "DONE"
    ensures r.status == DONE || r.status == WASHING
    ensures r.progress == p.progress && r.currentPhase == p.state && r.machineId == Some(p.machineId)
    ensures r.mode == (if p.mode.Some? then p.mode.value else o.mode)
    ensures r.orderCode == o.orderCode && r.emailSent == o.emailSent && r.price == o.price
    ensures r.createdAt == o.createdAt && r.completedAt == o.completedAt && r.pickedUpAt == o.pickedUpAt
    ensures r == o.(status := r.status, progress := r.progress, currentPhase := r.currentPhase,
                    mode := r.mode, machineId := r.machineId)
  {
    o.(status := if p.state == "DONE" then DONE else WASHING,
       progress := p.progress,
       currentPhase := p.state,
       mode := if p.mode.Some? then p.mode.value else o.mode,
       machineId := Some(p.machineId))
  }

  /** Mirroring the same message twice is mirroring it once. */
  lemma ReplayMirror(o: Order, p: Payload)
    ensures MirrorStatus(MirrorStatus(o, p), p) == MirrorStatus(o, p)
  {
  }

  /**
   * The order after a DONE event: DONE, progress 100, phase DONE, completion time,
   * the event's mode, and the completion guard set whether or not it was set before.
   */
  function CompleteOrder(o: Order, mode: Option<string>, now: nat): (r: Order)
    ensures r.status == DONE && r.progress == 100 && r.currentPhase == "DONE" && r.completedAt == Some(now)
    ensures r.mode == (if mode.Some? then mode.value else o.mode)
    ensures r.emailSent == EmailSent(o.emailSent.created, true)
    ensures r.orderCode == o.orderCode && r.machineId == o.machineId && r.price == o.price
    ensures r == o.(status := r.status, progress := r.progress, currentPhase := r.currentPhase,
                    completedAt := r.completedAt, mode := r.mode, emailSent := r.emailSent)
  {
    o.(status := DONE, progress := 100, currentPhase := "DONE", completedAt := Some(now),
       mode := if mode.Some? then mode.value else o.mode,
       emailSent := o.emailSent.(completed := true))
  }

  /** One finished cycle: both counters go up by one, the machine is free again. */
  function CountCycle(m: Machine): (r: Machine)
    ensures r.stats.totalCycles == m.stats.totalCycles + 1
    ensures r.stats.todayCycles == m.stats.todayCycles + 1
    ensures r.stats.lastResetDate == m.stats.lastResetDate
    ensures r.status == AVAILABLE && r.currentOrderCode == None
    ensures r.id == m.id && r.name == m.name && r.realtime == m.realtime
    ensures r == m.(stats := r.stats, status := r.status, currentOrderCode := r.currentOrderCode)
  {
    m.(stats := m.stats.(totalCycles := m.stats.totalCycles + 1, todayCycles := m.stats.todayCycles + 1),
       status := AVAILABLE, currentOrderCode := None)
  }

  /** The machine after an ONLINE event. */
  function MarkOnline(m: Machine, now: nat): (r: Machine)
    ensures r.status == AVAILABLE && r.realtime.lastUpdate == now
    ensures r.realtime == m.realtime.(lastUpdate := now)
    ensures r.id == m.id && r.name == m.name && r.stats == m.stats && r.currentOrderCode == m.currentOrderCode
    ensures r == m.(status := r.status, realtime := r.realtime)
  {
    m.(status := AVAILABLE, realtime := m.realtime.(lastUpdate := now))
  }

  /** The notification text: the device's message, or a fallback naming machine and error type. */
  function ErrorText(p: Payload): (s: string)
    ensures Truthy(p.errorMessage) ==> s == p.errorMessage.value
    ensures !Truthy(p.errorMessage) ==> s == "Máy " + p.machineId + " gặp lỗi: " + p.errorType
  {
    if Truthy(p.errorMessage) then p.errorMessage.value
    else "Máy " + p.machineId + " gặp lỗi: " + p.errorType
  }

  function ErrorNotification(p: Payload, id: nat, now: nat): (n: Notification)
    ensures n.id == id && n.kind == NotificationModel.ERROR && n.title == "Lỗi " + p.machineId
    ensures n.message == ErrorText(p) && n.machineId == p.machineId && n.orderCode == p.orderCode
    ensures n.data == ErrorData(p.errorType, p.errorMessage)
    ensures !n.read && n.readAt == None && n.createdAt == now
  {
    Notification(id, NotificationModel.ERROR, "Lỗi " + p.machineId, ErrorText(p), p.machineId,
                 p.orderCode, ErrorData(p.errorType, p.errorMessage), false, None, now)
  }

  /** The per-machine command topic. */
  function CommandTopic(machineId: string): (t: string)
    ensures |t| == |machineId| + 16
    ensures t[..8] == "laundry/" && t[|t| - 8..] == "/command"
  {
    "laundry/" + machineId + "/command"
  }

  /** The machine id a command topic is addressed to (undefined on other topics). */
  function CommandTarget(topic: string): string
    requires |topic| >= 16
  {
    topic[8..|topic| - 8]
  }

  /** The command topic names its machine: two machines never share one. */
  lemma CommandTopicNamesMachine(machineId: string)
    ensures CommandTarget(CommandTopic(machineId)) == machineId
  {
    var t := CommandTopic(machineId);
    assert t[8..|t| - 8] == machineId;
  }

  /** `{command, ...data}`: the command key first, then the data keys, which win on a clash. */
  function CommandPayload(command: string, data: map<string, string>): (r: map<string, string>)
    ensures r.Keys == {"command"} + data.Keys
    ensures "command" !in data ==> r["command"] == command
    ensures forall k :: k in data ==> r[k] == data[k]
  {
    map["command" := command] + data
  }

  /** `sendCommand`: one publish on the machine's command topic, nothing else changes. */
  method SendCommand(st: Store, machineId: string, command: string, data: map<string, string>)
    requires st.Valid()
    modifies st
    ensures st.Valid()
    ensures st.commands == old(st.commands) + [Published(CommandTopic(machineId), CommandPayload(command, data))]
    ensures st.machines == old(st.machines) && st.orders == old(st.orders)
    ensures st.notifications == old(st.notifications) && st.nextNotificationId == old(st.nextNotificationId)
    ensures st.events == old(st.events) && st.outbox == old(st.outbox)
  {
    st.commands := st.commands + [Published(CommandTopic(machineId), CommandPayload(command, data))];
  }

  /** The machine a status message is applied to: the stored one, or a newly provisioned one. */
  function StatusTarget(machines: map<string, Machine>, id: string, now: nat): (m: Machine)
    ensures id in machines ==> m == machines[id]
    ensures id !in machines ==> m == NewMachine(id, ProvisionedName(id), now)
  {
    if id in machines then machines[id] else NewMachine(id, ProvisionedName(id), now)
  }

  /**
   * The stored code an `{orderCode}` filter matches: the schema declares the path
   * `uppercase`, and the filter value is cast through that setter before matching.
   */
  function OrderKey(code: string): (k: string)
    ensures |k| == |code|
    ensures IsOrderCode(code) ==> k == code
  {
    ToUpper(code)
  }

  /** The orders after a status message: the order it names, if stored, mirrors the report. */
  function MirroredOrders(orders: map<string, Order>, p: Payload): (r: map<string, Order>)
    ensures r.Keys == orders.Keys
    ensures Truthy(p.orderCode) && OrderKey(p.orderCode.value) in orders ==>
              r[OrderKey(p.orderCode.value)] == MirrorStatus(orders[OrderKey(p.orderCode.value)], p)
    ensures forall c :: c in orders && !(Truthy(p.orderCode) && c == OrderKey(p.orderCode.value)) ==> r[c] == orders[c]
  {
    if Truthy(p.orderCode) && OrderKey(p.orderCode.value) in orders
    then orders[OrderKey(p.orderCode.value) := MirrorStatus(orders[OrderKey(p.orderCode.value)], p)]
    else orders
  }

  /** A status message keeps the keying of both collections and the mail bookkeeping. */
  lemma StatusKeepsInvariants(machines: map<string, Machine>, orders: map<string, Order>, outbox: seq<MailAttempt>,
                              p: Payload, now: nat)
    requires MachinesKeyed(machines) && OrdersKeyed(orders) && MailConsistent(orders, outbox)
    ensures MachinesKeyed(machines[p.machineId := ApplyStatus(StatusTarget(machines, p.machineId, now), p, now)])
    ensures OrdersKeyed(MirroredOrders(orders, p)) && MailConsistent(MirroredOrders(orders, p), outbox)
  {
    MachinesKeyedUpdate(machines, p.machineId, ApplyStatus(StatusTarget(machines, p.machineId, now), p, now));
    if Truthy(p.orderCode) && OrderKey(p.orderCode.value) in orders {
      var code := OrderKey(p.orderCode.value);
      OrderRewriteKeepsInvariants(orders, outbox, code, MirrorStatus(orders[code], p));
    }
  }

  /** The whole effect of `handleMachineStatus` on the store. */
  twostate predicate StatusHandled(st: Store, p: Payload, now: nat)
    reads st
  {
    var m := ApplyStatus(StatusTarget(old(st.machines), p.machineId, now), p, now);
    && st.machines == old(st.machines)[p.machineId := m]
    && st.orders == MirroredOrders(old(st.orders), p)
    && st.events == old(st.events) + [MachineUpdate(p.machineId, m.status, m.realtime, p.orderCode)]
                    + (if Truthy(p.orderCode) then [OrderUpdate(p.orderCode.value, p.progress, p.state, p.mode)] else [])
    && st.notifications == old(st.notifications) && st.nextNotificationId == old(st.nextNotificationId)
    && st.commands == old(st.commands) && st.outbox == old(st.outbox)
  }

  method HandleMachineStatus(st: Store, p: Payload, now: nat)
    requires st.Valid()
    modifies st
    ensures st.Valid()
    ensures StatusHandled(st, p, now)
  {
    StatusKeepsInvariants(st.machines, st.orders, st.outbox, p, now);
    var machine := StatusTarget(st.machines, p.machineId, now);
    machine := ApplyStatus(machine, p, now);
    st.machines := st.machines[p.machineId := machine];
    st.orders := MirroredOrders(st.orders, p);
    st.events := st.events + [MachineUpdate(p.machineId, machine.status, machine.realtime, p.orderCode)];
    if Truthy(p.orderCode) {
      st.events := st.events + [OrderUpdate(p.orderCode.value, p.progress, p.state, p.mode)];
    } else {
      assert st.events + [] == st.events;
    }
  }

  /** The whole effect of `handleError` on the store: one more notification and two emissions. */
  twostate predicate ErrorHandled(st: Store, p: Payload, now: nat)
    reads st
  {
    var n := ErrorNotification(p, old(st.nextNotificationId), now);
    && st.notifications == old(st.notifications) + [n]
    && st.nextNotificationId == old(st.nextNotificationId) + 1
    && st.events == old(st.events) + [NewNotification(n), MachineError(p.machineId, p.errorType, p.errorMessage, p.orderCode, now)]
    && st.machines == old(st.machines) && st.orders == old(st.orders)
    && st.commands == old(st.commands) && st.outbox == old(st.outbox)
  }

  method HandleError(st: Store, p: Payload, now: nat)
    requires st.Valid()
    modifies st
    ensures st.Valid()
    ensures ErrorHandled(st, p, now)
  {
    var n := ErrorNotification(p, st.nextNotificationId, now);
    st.notifications := st.notifications + [n];
    st.nextNotificationId := st.nextNotificationId + 1;
    st.events := st.events + [NewNotification(n), MachineError(p.machineId, p.errorType, p.errorMessage, p.orderCode, now)];
  }

  /** The machine an ONLINE event upserts: the stored one, or a new one with the schema defaults. */
  function OnlineTarget(machines: map<string, Machine>, id: string, now: nat): (m: Machine)
    ensures id in machines ==> m == machines[id]
    ensures id !in machines ==> m == NewMachine(id, DefaultName(id), now)
  {
    if id in machines then machines[id] else NewMachine(id, DefaultName(id), now)
  }

  /** The orders after a DONE event for `code`: the stored order, if any, is completed. */
  function CompletedOrders(orders: map<string, Order>, code: string, mode: Option<string>, now: nat): (r: map<string, Order>)
    ensures r.Keys == orders.Keys
    ensures code in orders ==> r[code] == CompleteOrder(orders[code], mode, now)
    ensures forall c :: c in orders && c != code ==> r[c] == orders[c]
  {
    if code in orders then orders[code := CompleteOrder(orders[code], mode, now)] else orders
  }

  /** The mail log after a DONE event: the completion mail is attempted only while its guard is clear. */
  function CompletionOutbox(orders: map<string, Order>, outbox: seq<MailAttempt>, code: string, mailOk: bool): (r: seq<MailAttempt>)
    ensures |outbox| <= |r| <= |outbox| + 1 && r[..|outbox|] == outbox
    ensures |r| == |outbox| + 1 <==> code in orders && !orders[code].emailSent.completed
    ensures |r| == |outbox| + 1 ==> r[|outbox|] == MailAttempt(OrderCompletedMail, code, mailOk)
  {
    outbox + (if code in orders && !orders[code].emailSent.completed
              then [MailAttempt(OrderCompletedMail, code, mailOk)] else [])
  }

  /** The machines after a DONE event: a stored machine counts one cycle. */
  function CountedMachines(machines: map<string, Machine>, id: string): (r: map<string, Machine>)
    ensures r.Keys == machines.Keys
    ensures id in machines ==> r[id] == CountCycle(machines[id])
    ensures forall c :: c in machines && c != id ==> r[c] == machines[c]
  {
    if id in machines then machines[id := CountCycle(machines[id])] else machines
  }

  /** A DONE event keeps the keying of both collections and the one-mail-per-flag bookkeeping. */
  lemma DoneKeepsInvariants(machines: map<string, Machine>, orders: map<string, Order>, outbox: seq<MailAttempt>,
                            code: string, machineId: string, mode: Option<string>, now: nat, mailOk: bool)
    requires MachinesKeyed(machines) && OrdersKeyed(orders) && MailConsistent(orders, outbox)
    ensures MachinesKeyed(CountedMachines(machines, machineId))
    ensures OrdersKeyed(CompletedOrders(orders, code, mode, now))
    ensures MailConsistent(CompletedOrders(orders, code, mode, now), CompletionOutbox(orders, outbox, code, mailOk))
  {
    if code in orders {
      var after := CompleteOrder(orders[code], mode, now);
      if !orders[code].emailSent.completed {
        CompletionKeepsMailConsistent(orders, outbox, code, after, mailOk);
      } else {
        assert after.emailSent == orders[code].emailSent;
        OrderRewriteKeepsInvariants(orders, outbox, code, after);
        assert CompletionOutbox(orders, outbox, code, mailOk) == outbox + [] == outbox;
      }
    } else {
      assert CompletionOutbox(orders, outbox, code, mailOk) == outbox + [] == outbox;
    }
    if machineId in machines {
      MachinesKeyedUpdate(machines, machineId, CountCycle(machines[machineId]));
    }
  }

  /**
   * The effect of a DONE event for `code`: the stored order it matches (if any) is completed,
   * the completion mail is attempted only while its guard is clear, a stored machine counts
   * one cycle, and one `orderCompleted` emission with the code as sent follows.
   */
  twostate predicate DoneHandled(st: Store, code: string, machineId: string, mode: Option<string>, now: nat, mailOk: bool)
    reads st
  {
    && st.orders == CompletedOrders(old(st.orders), OrderKey(code), mode, now)
    && st.outbox == CompletionOutbox(old(st.orders), old(st.outbox), OrderKey(code), mailOk)
    && st.machines == CountedMachines(old(st.machines), machineId)
    && st.events == old(st.events) + [OrderCompleted(code, machineId)]
    && st.notifications == old(st.notifications) && st.nextNotificationId == old(st.nextNotificationId)
    && st.commands == old(st.commands)
  }

  /** The effect of an ONLINE event: the machine is upserted as AVAILABLE and one emission follows. */
  twostate predicate OnlineHandled(st: Store, machineId: string, now: nat)
    reads st
  {
    && st.machines == old(st.machines)[machineId := MarkOnline(OnlineTarget(old(st.machines), machineId, now), now)]
    && st.events == old(st.events) + [MachineOnline(machineId)]
    && st.orders == old(st.orders) && st.outbox == old(st.outbox)
    && st.notifications == old(st.notifications) && st.nextNotificationId == old(st.nextNotificationId)
    && st.commands == old(st.commands)
  }

  /** The whole effect of `handleEvent`: DONE with an order code, ONLINE, or nothing at all. */
  twostate predicate EventHandled(st: Store, p: Payload, now: nat, mailOk: bool)
    reads st
  {
    if p.event == "DONE" && Truthy(p.orderCode) then DoneHandled(st, p.orderCode.value, p.machineId, p.mode, now, mailOk)
    else if p.event == "ONLINE" then OnlineHandled(st, p.machineId, now)
    else unchanged(st)
  }

  /** The DONE branch of `handleEvent`; `mailOk` is what the e-mail collaborator returns, which is ignored. */
  method HandleDone(st: Store, code: string, machineId: string, mode: Option<string>, now: nat, mailOk: bool)
    requires st.Valid()
    modifies st
    ensures st.Valid()
    ensures DoneHandled(st, code, machineId, mode, now, mailOk)
  {
    var key := OrderKey(code);
    DoneKeepsInvariants(st.machines, st.orders, st.outbox, key, machineId, mode, now, mailOk);
    // sendOrderCompleted(order) is attempted while emailSent.completed is clear; its result is not looked at
    st.outbox := CompletionOutbox(st.orders, st.outbox, key, mailOk);
    st.orders := CompletedOrders(st.orders, key, mode, now);
    st.machines := CountedMachines(st.machines, machineId);
    st.events := st.events + [OrderCompleted(code, machineId)];
  }

  /** The ONLINE branch of `handleEvent`. */
  method HandleOnline(st: Store, machineId: string, now: nat)
    requires st.Valid()
    modifies st
    ensures st.Valid()
    ensures OnlineHandled(st, machineId, now)
  {
    var m := MarkOnline(OnlineTarget(st.machines, machineId, now), now);
    MachinesKeyedUpdate(st.machines, machineId, m);
    st.machines := st.machines[machineId := m];
    st.events := st.events + [MachineOnline(machineId)];
  }

  /** `handleEvent`. */
  method HandleEvent(st: Store, p: Payload, now: nat, mailOk: bool)
    requires st.Valid()
    modifies st
    ensures st.Valid()
    ensures EventHandled(st, p, now, mailOk)
  {
    if p.event == "DONE" && Truthy(p.orderCode) {
      HandleDone(st, p.orderCode.value, p.machineId, p.mode, now, mailOk);
    } else if p.event == "ONLINE" {
      HandleOnline(st, p.machineId, now);
    }
  }

  /**
   * The broker's message callback: a payload that does not parse and a topic that
   * matches no route leave everything as it was; otherwise exactly one handler runs.
   */
  method OnMessage(st: Store, topic: string, msg: Message, now: nat, mailOk: bool)
    requires st.Valid()
    modifies st
    ensures st.Valid()
    ensures msg.Malformed? || RouteOf(topic) == Ignored ==> unchanged(st)
    ensures msg.Json? && RouteOf(topic) == ToStatus ==> StatusHandled(st, msg.payload, now)
    ensures msg.Json? && RouteOf(topic) == ToError ==> ErrorHandled(st, msg.payload, now)
    ensures msg.Json? && RouteOf(topic) == ToEvent ==> EventHandled(st, msg.payload, now, mailOk)
  {
    if msg.Json? {
      match RouteOf(topic)
      case ToStatus => HandleMachineStatus(st, msg.payload, now);
      case ToError => HandleError(st, msg.payload, now);
      case ToEvent => HandleEvent(st, msg.payload, now, mailOk);
      case Ignored =>
    }
  }
}
