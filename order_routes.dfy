/**
 * The order routes: creation with the unique-code retry loop and the schema's
 * defaults and validation, start on an available machine, pickup, cancel, and
 * the day statistics.
 */
module OrderRoutes {
  import opened Wrappers
  import opened Strings
  import opened OrderModel
  import opened MachineModel
  import opened Database
  import opened MqttService

  /** Six draws of `Math.random`, enough for one candidate code. */
  type Draws = s: seq<CharIndex> | |s| == CodeLength witness [0, 0, 0, 0, 0, 0]

  /** The body of a creation request; None is a field the client left out. */
  datatype OrderInput = OrderInput(
    customerEmail: Option<string>,
    customerName: Option<string>,
    customerPhone: Option<string>,
    package: Option<string>,
    price: Option<int>)

  /** `pkg || 'STANDARD'`, before the schema's enum check. */
  function PackageName(pkg: Option<string>): (s: string)
    ensures Truthy(pkg) ==> s == pkg.value
    ensures !Truthy(pkg) ==> s == "STANDARD"
  {
    if Truthy(pkg) then pkg.value else "STANDARD"
  }

  /** `price || 30000`: a missing price and a price of 0 both become the default. */
  function PriceOf(price: Option<int>): (p: int)
    ensures p != 0
    ensures price.Some? && price.value != 0 ==> p == price.value
    ensures price == None || price == Some(0) ==> p == DefaultPrice
  {
    if price.Some? && price.value != 0 then price.value else DefaultPrice
  }

  /** A missing optional text field takes the schema's default "". */
  function TextOrEmpty(o: Option<string>): string {
    if o.Some? then o.value else ""
  }

  /**
   * The document `new Order({...})` builds and `save()` accepts: None when validation refuses
   * it (a falsy customer e-mail, which `required` rejects, or a package outside the enum).
   */
  function BuildOrder(code: string, input: OrderInput, now: nat): (r: Option<Order>)
    ensures r.Some? <==> Truthy(input.customerEmail) && ParsePackage(PackageName(input.package)).Some?
    ensures r.Some? ==> r.value.orderCode == code && r.value.customerEmail == input.customerEmail.value
    ensures r.Some? ==> Some(r.value.package) == ParsePackage(PackageName(input.package))
    ensures r.Some? ==> r.value.price == PriceOf(input.price)
    ensures r.Some? ==> r.value.customerName == TextOrEmpty(input.customerName)
    ensures r.Some? ==> r.value.customerPhone == TextOrEmpty(input.customerPhone)
    ensures r.Some? ==> r.value.status == PENDING && r.value.emailSent == EmailSent(false, false)
  {
    var pkg := ParsePackage(PackageName(input.package));
    if Truthy(input.customerEmail) && pkg.Some? then
      Some(NewOrder(code, input.customerEmail.value, TextOrEmpty(input.customerName),
                    TextOrEmpty(input.customerPhone), pkg.value, PriceOf(input.price), now))
    else None
  }

  /** Leaving out the package gives STANDARD; leaving out or zeroing the price gives 30000. */
  lemma CreationDefaults(code: string, email: string, now: nat)
    requires email != ""
    ensures var r := BuildOrder(code, OrderInput(Some(email), None, None, None, None), now);
            r.Some? && r.value.package == STANDARD && r.value.price == DefaultPrice
    ensures var r := BuildOrder(code, OrderInput(Some(email), None, None, Some(""), Some(0)), now);
            r.Some? && r.value.package == STANDARD && r.value.price == DefaultPrice
  {
  }

  /** A taken first candidate followed by `n - 1` taken ones makes `n` taken candidates. */
  lemma TakenCons(orders: map<string, Order>, draws: seq<Draws>, n: nat)
    requires 0 < n <= |draws| && CodeOf(draws[0]) in orders
    requires forall j :: 0 <= j < n - 1 ==> CodeOf(draws[1..][j]) in orders
    ensures forall j :: 0 <= j < n ==> CodeOf(draws[j]) in orders
  {
    forall j | 0 < j < n ensures CodeOf(draws[j]) in orders {
      assert draws[j] == draws[1..][j - 1];
    }
  }

  /**
   * The code the retry loop settles on: the first candidate not already in use,
   * or None when every candidate given is taken.
   */
  function FirstFresh(orders: map<string, Order>, draws: seq<Draws>): (r: Option<string>)
    ensures r.Some? ==> r.value !in orders && IsOrderCode(r.value)
    ensures r.Some? ==> exists k :: 0 <= k < |draws| && CodeOf(draws[k]) == r.value
                                    && forall j :: 0 <= j < k ==> CodeOf(draws[j]) in orders
    ensures r.None? <==> forall k :: 0 <= k < |draws| ==> CodeOf(draws[k]) in orders
  {
    if draws == [] then None
    else if CodeOf(draws[0]) !in orders then Some(CodeOf(draws[0]))
    else
      var rest := FirstFresh(orders, draws[1..]);
      if rest.Some? then
        var k :| 0 <= k < |draws[1..]| && CodeOf(draws[1..][k]) == rest.value
                 && forall j :: 0 <= j < k ==> CodeOf(draws[1..][j]) in orders;
        TakenCons(orders, draws, k + 1);
        assert CodeOf(draws[k + 1]) == rest.value;
        rest
      else
        TakenCons(orders, draws, |draws|);
        rest
  }

  /** The draw loop is the generator: each candidate is exactly `CodeOf` its draws. */
  lemma GeneratedIsCodeOf(rolls: Draws, code: string)
    requires |code| == CodeLength
    requires forall i :: 0 <= i < CodeLength ==> code[i] == Alphabet[rolls[i]]
    ensures code == CodeOf(rolls)
  {
  }

  /** `while (!isUnique)`: draw candidates until one is not in use; running out of draws ends the search. */
  method FindFreshCode(orders: map<string, Order>, draws: seq<Draws>) returns (found: bool, code: string)
    ensures found <==> FirstFresh(orders, draws).Some?
    ensures found ==> code == FirstFresh(orders, draws).value
  {
    found, code := false, "";
    var i := 0;
    while !found && i < |draws|
      invariant 0 <= i <= |draws|
      invariant found ==> FirstFresh(orders, draws) == Some(code)
      invariant !found ==> FirstFresh(orders, draws) == FirstFresh(orders, draws[i..])
    {
      code := GenerateOrderCode(draws[i]);
      GeneratedIsCodeOf(draws[i], code);
      assert draws[i..][1..] == draws[i + 1..];
      found := code !in orders;
      i := i + 1;
    }
    if !found {
      assert draws[i..] == [];
    }
  }

  /** POST `/`: pick a fresh code, save the order, attempt the creation mail once and record its result. */
  method CreateOrder(st: Store, input: OrderInput, draws: seq<Draws>, now: nat, mailOk: bool) returns (reply: Reply, code: string)
    requires st.Valid()
    modifies st
    ensures st.Valid()
    ensures reply == Ok || reply == ServerError
    ensures reply == Ok <==> FirstFresh(old(st.orders), draws).Some?
                             && BuildOrder(FirstFresh(old(st.orders), draws).value, input, now).Some?
    ensures reply == Ok ==> code == FirstFresh(old(st.orders), draws).value && code !in old(st.orders)
    ensures reply == Ok ==> st.orders == old(st.orders)[code := BuildOrder(code, input, now).value.(emailSent := EmailSent(mailOk, false))]
    ensures reply == Ok ==> st.outbox == old(st.outbox) + [MailAttempt(OrderCreatedMail, code, mailOk)]
    ensures reply == Ok ==> st.orders[code].emailSent.created == mailOk
    ensures reply == ServerError ==> st.orders == old(st.orders) && st.outbox == old(st.outbox)
    ensures st.machines == old(st.machines) && st.notifications == old(st.notifications)
    ensures st.nextNotificationId == old(st.nextNotificationId)
    ensures st.events == old(st.events) && st.commands == old(st.commands)
  {
    var found;
    found, code := FindFreshCode(st.orders, draws);
    if !found {
      return ServerError, code;
    }
    var built := BuildOrder(code, input, now);
    if built.None? {
      return ServerError, code;
    }
    // sendOrderCreated(order), then `emailSent.created = true` only when it returned true
    var order := built.value.(emailSent := EmailSent(mailOk, false));
    CreationKeepsMailConsistent(st.orders, st.outbox, code, order, mailOk);
    st.orders := st.orders[code := order];
    st.outbox := st.outbox + [MailAttempt(OrderCreatedMail, code, mailOk)];
    reply := Ok;
  }

  /** The machine check of `/start`: it exists and is AVAILABLE. */
  predicate Available(machines: map<string, Machine>, machineId: string)
    ensures Available(machines, machineId) ==> machineId in machines
  {
    machineId in machines && machines[machineId].status == AVAILABLE
  }

  /** The order update of `/start`. */
  function StartedOrder(o: Order, machineId: string, now: nat): (r: Order)
    ensures r.status == WASHING && r.machineId == Some(machineId) && r.startedAt == Some(now)
    ensures r.orderCode == o.orderCode && r.emailSent == o.emailSent && r.progress == o.progress
    ensures r.completedAt == o.completedAt && r.pickedUpAt == o.pickedUpAt && r.price == o.price
    ensures r == o.(status := r.status, machineId := r.machineId, startedAt := r.startedAt)
  {
    o.(machineId := Some(machineId), status := WASHING, startedAt := Some(now))
  }

  /** The machine update of `/start`. */
  function Engaged(m: Machine, code: string): (r: Machine)
    ensures r.status == RUNNING && r.currentOrderCode == Some(code)
    ensures r.id == m.id && r.name == m.name && r.realtime == m.realtime && r.stats == m.stats
    ensures r == m.(status := r.status, currentOrderCode := r.currentOrderCode)
  {
    m.(status := RUNNING, currentOrderCode := Some(code))
  }

  /** The START command's payload. */
  function StartCommand(machineId: string, code: string): (p: Published)
    ensures p.topic == CommandTopic(machineId)
    ensures p.payload.Keys == {"command", "orderCode"}
    ensures p.payload["command"] == "START" && p.payload["orderCode"] == code
  {
    Published(CommandTopic(machineId), CommandPayload("START", map["orderCode" := code]))
  }

  /**
   * POST `/:orderCode/start`. The machine is checked first (400), then the upper-cased
   * code is looked up (404); the prior status of the order is not looked at.
   */
  method StartOrder(st: Store, rawCode: string, machineId: string, now: nat) returns (reply: Reply)
    requires st.Valid()
    modifies st
    ensures st.Valid()
    ensures reply == BadRequest <==> !Available(old(st.machines), machineId)
    ensures reply == NotFound <==> Available(old(st.machines), machineId) && ToUpper(rawCode) !in old(st.orders)
    ensures reply == Ok || reply == BadRequest || reply == NotFound
    ensures reply != Ok ==> unchanged(st)
    ensures reply == Ok ==>
      var code := ToUpper(rawCode);
      && st.orders == old(st.orders)[code := StartedOrder(old(st.orders)[code], machineId, now)]
      && st.machines == old(st.machines)[machineId := Engaged(old(st.machines)[machineId], code)]
      && st.commands == old(st.commands) + [StartCommand(machineId, code)]
      && st.events == old(st.events) && st.outbox == old(st.outbox)
      && st.notifications == old(st.notifications) && st.nextNotificationId == old(st.nextNotificationId)
    ensures reply == Ok ==>
      var code := ToUpper(rawCode);
      st.orders[code].machineId == Some(machineId) && st.machines[machineId].currentOrderCode == Some(code)
  {
    if !Available(st.machines, machineId) {
      return BadRequest;
    }
    var code := ToUpper(rawCode);
    if code !in st.orders {
      return NotFound;
    }
    var order := StartedOrder(st.orders[code], machineId, now);
    OrderRewriteKeepsInvariants(st.orders, st.outbox, code, order);
    st.orders := st.orders[code := order];
    var machine := Engaged(st.machines[machineId], code);
    MachinesKeyedUpdate(st.machines, machineId, machine);
    st.machines := st.machines[machineId := machine];
    SendCommand(st, machineId, "START", map["orderCode" := code]);
    reply := Ok;
  }

  function PickedUp(o: Order, now: nat): (r: Order)
    ensures r.status == PICKED_UP && r.pickedUpAt == Some(now)
    ensures r.orderCode == o.orderCode && r.emailSent == o.emailSent && r.machineId == o.machineId
    ensures r.progress == o.progress && r.startedAt == o.startedAt && r.completedAt == o.completedAt
    ensures r == o.(status := r.status, pickedUpAt := r.pickedUpAt)
  {
    o.(status := PICKED_UP, pickedUpAt := Some(now))
  }

  /** POST `/:orderCode/pickup`: any stored order becomes PICKED_UP, whatever its status. */
  method Pickup(st: Store, rawCode: string, now: nat) returns (reply: Reply)
    requires st.Valid()
    modifies st
    ensures st.Valid()
    ensures reply == Ok || reply == NotFound
    ensures reply == NotFound <==> ToUpper(rawCode) !in old(st.orders)
    ensures reply == NotFound ==> unchanged(st)
    ensures reply == Ok ==>
      var code := ToUpper(rawCode);
      && st.orders == old(st.orders)[code := PickedUp(old(st.orders)[code], now)]
      && st.machines == old(st.machines) && st.outbox == old(st.outbox) && st.events == old(st.events)
      && st.commands == old(st.commands) && st.notifications == old(st.notifications)
      && st.nextNotificationId == old(st.nextNotificationId)
  {
    var code := ToUpper(rawCode);
    if code !in st.orders {
      return NotFound;
    }
    var order := PickedUp(st.orders[code], now);
    OrderRewriteKeepsInvariants(st.orders, st.outbox, code, order);
    st.orders := st.orders[code := order];
    reply := Ok;
  }

  function Cancelled(o: Order): (r: Order)
    ensures r.status == CANCELLED
    ensures r.orderCode == o.orderCode && r.emailSent == o.emailSent && r.machineId == o.machineId
    ensures r.progress == o.progress && r.startedAt == o.startedAt && r.price == o.price
    ensures r == o.(status := r.status)
  {
    o.(status := CANCELLED)
  }

  /** DELETE `/:orderCode`: only a PENDING order is cancelled; anything else is 404 and no change. */
  method Cancel(st: Store, rawCode: string) returns (reply: Reply)
    requires st.Valid()
    modifies st
    ensures st.Valid()
    ensures reply == Ok || reply == NotFound
    ensures reply == Ok <==> ToUpper(rawCode) in old(st.orders) && old(st.orders)[ToUpper(rawCode)].status == PENDING
    ensures reply == NotFound ==> unchanged(st)
    ensures reply == Ok ==>
      var code := ToUpper(rawCode);
      && st.orders == old(st.orders)[code := Cancelled(old(st.orders)[code])]
      && st.machines == old(st.machines) && st.outbox == old(st.outbox) && st.events == old(st.events)
      && st.commands == old(st.commands) && st.notifications == old(st.notifications)
      && st.nextNotificationId == old(st.nextNotificationId)
  {
    var code := ToUpper(rawCode);
    if code !in st.orders || st.orders[code].status != PENDING {
      return NotFound;
    }
    var order := Cancelled(st.orders[code]);
    OrderRewriteKeepsInvariants(st.orders, st.outbox, code, order);
    st.orders := st.orders[code := order];
    reply := Ok;
  }

  /** Cancelling is final: whatever the first DELETE did, a second one on the same code is 404 and changes nothing. */
  method SecondCancelFails(st: Store, rawCode: string) returns (first: Reply, second: Reply)
    requires st.Valid()
    modifies st
    ensures st.Valid()
    ensures second == NotFound
    ensures first == NotFound ==> unchanged(st)
    ensures first == Ok ==> ToUpper(rawCode) in old(st.orders) && st.orders == old(st.orders)[ToUpper(rawCode) := Cancelled(old(st.orders)[ToUpper(rawCode)])]
  {
    first := Cancel(st, rawCode);
    second := Cancel(st, rawCode);
  }

  /** A started order is no longer PENDING, so cancelling it afterwards is 404. */
  method StartedOrderNotCancellable(st: Store, rawCode: string, machineId: string, now: nat) returns (started: Reply, cancelled: Reply)
    requires st.Valid()
    modifies st
    ensures st.Valid()
    ensures started == Ok ==> cancelled == NotFound && ToUpper(rawCode) in st.orders && st.orders[ToUpper(rawCode)].status == WASHING
  {
    started := StartOrder(st, rawCode, machineId, now);
    cancelled := Cancel(st, rawCode);
  }

  /** Once a pickup has been attempted on a code, cancelling that code is always 404. */
  method PickedUpOrderNotCancellable(st: Store, rawCode: string, now: nat) returns (picked: Reply, cancelled: Reply)
    requires st.Valid()
    modifies st
    ensures st.Valid()
    ensures cancelled == NotFound
    ensures picked == Ok ==> ToUpper(rawCode) in st.orders && st.orders[ToUpper(rawCode)].status == PICKED_UP
  {
    picked := Pickup(st, rawCode, now);
    cancelled := Cancel(st, rawCode);
  }

  /** Stored codes are upper case already, so looking up the upper-cased path code finds them. */
  lemma StoredCodeIsUpperCase(code: string)
    requires IsOrderCode(code)
    ensures ToUpper(code) == code
  {
  }

  // ----- day statistics -----

  /** The sum of `f` over the orders satisfying `p`. */
  function SumWhere(os: seq<Order>, p: Order -> bool, f: Order -> int): int {
    if os == [] then 0 else (if p(os[0]) then f(os[0]) else 0) + SumWhere(os[1..], p, f)
  }

  /** The number of orders satisfying `p`. */
  function CountWhere(os: seq<Order>, p: Order -> bool): (n: nat)
    ensures n <= |os|
  {
    if os == [] then 0 else (if p(os[0]) then 1 else 0) + CountWhere(os[1..], p)
  }

  lemma {:induction false} SumWhereAppend(a: seq<Order>, b: seq<Order>, p: Order -> bool, f: Order -> int)
    ensures SumWhere(a + b, p, f) == SumWhere(a, p, f) + SumWhere(b, p, f)
  {
    if a != [] {
      assert (a + b)[0] == a[0] && (a + b)[1..] == a[1..] + b;
      SumWhereAppend(a[1..], b, p, f);
    } else {
      assert a + b == b;
    }
  }

  /** A count is a sum of ones. */
  lemma {:induction false} CountIsSumOfOnes(os: seq<Order>, p: Order -> bool)
    ensures CountWhere(os, p) == SumWhere(os, p, (_: Order) => 1)
  {
    if os != [] {
      CountIsSumOfOnes(os[1..], p);
    }
  }

  /** One element in the middle of a collection adds its share to the sum of the others. */
  lemma SumWhereMiddle(l: seq<Order>, x: Order, r: seq<Order>, p: Order -> bool, f: Order -> int)
    ensures SumWhere(l + [x] + r, p, f) == (if p(x) then f(x) else 0) + SumWhere(l + r, p, f)
  {
    SumWhereAppend(l + [x], r, p, f);
    SumWhereAppend(l, [x], p, f);
    SumWhereAppend(l, r, p, f);
    assert SumWhere([x], p, f) == (if p(x) then f(x) else 0) by {
      assert [x][1..] == [];
    }
  }

  /** Taking one element out of a collection takes its share out of the sum. */
  lemma SumWhereRemove(b: seq<Order>, k: nat, p: Order -> bool, f: Order -> int)
    requires k < |b|
    ensures SumWhere(b, p, f) == (if p(b[k]) then f(b[k]) else 0) + SumWhere(b[..k] + b[k + 1..], p, f)
  {
    assert b == b[..k] + [b[k]] + b[k + 1..];
    SumWhereMiddle(b[..k], b[k], b[k + 1..], p, f);
  }

  /** Taking one element out of a collection takes one copy of it out of the bag. */
  lemma MultisetRemove(b: seq<Order>, k: nat)
    requires k < |b|
    ensures multiset(b[..k] + b[k + 1..]) == multiset(b) - multiset{b[k]}
  {
    assert b == b[..k] + [b[k]] + b[k + 1..];
    assert multiset(b) == multiset(b[..k]) + multiset{b[k]} + multiset(b[k + 1..]);
  }

  /** The aggregation does not depend on the order the collection is enumerated in. */
  lemma {:induction false} SumWherePermutation(a: seq<Order>, b: seq<Order>, p: Order -> bool, f: Order -> int)
    requires multiset(a) == multiset(b)
    ensures SumWhere(a, p, f) == SumWhere(b, p, f)
    decreases |a|
  {
    if a == [] {
      assert |b| == |multiset(b)| == 0;
    } else {
      var x := a[0];
      assert x in multiset(b);
      var k :| 0 <= k < |b| && b[k] == x;
      SumWhereRemove(b, k, p, f);
      MultisetRemove(b, k);
      assert a == [x] + a[1..];
      assert multiset(a[1..]) == multiset(a) - multiset{x};
      SumWherePermutation(a[1..], b[..k] + b[k + 1..], p, f);
    }
  }

  /** With no order satisfying `p` the sum is 0. */
  lemma {:induction false} SumWhereNone(os: seq<Order>, p: Order -> bool, f: Order -> int)
    requires forall i :: 0 <= i < |os| ==> !p(os[i])
    ensures SumWhere(os, p, f) == 0
  {
    if os != [] {
      SumWhereNone(os[1..], p, f);
    }
  }

  /** Two conditions no order meets at once are counted apart, within the collection's size. */
  lemma {:induction false} CountDisjoint(os: seq<Order>, p: Order -> bool, q: Order -> bool)
    requires forall i :: 0 <= i < |os| ==> !(p(os[i]) && q(os[i]))
    ensures CountWhere(os, p) + CountWhere(os, q) <= |os|
  {
    if os != [] {
      CountDisjoint(os[1..], p, q);
    }
  }

  /** `today.setHours(0, 0, 0, 0)`, as the start of the day number (time zone left out). */
  function DayStart(now: nat): (t: nat)
    ensures t <= now && DayOf(t) == DayOf(now)
  {
    DayOf(now) * MsPerDay
  }

  predicate CreatedSince(o: Order, t: nat) {
    o.createdAt >= t
  }

  /** The statuses whose price counts as revenue. */
  predicate Earning(o: Order) {
    o.status == DONE || o.status == PICKED_UP
  }

  datatype Summary = Summary(todayOrders: nat, totalOrders: nat, pendingOrders: nat, washingOrders: nat, todayRevenue: int)

  /** `os` lists each stored order exactly once: an enumeration of the collection the queries run over. */
  predicate Enumerates(os: seq<Order>, orders: map<string, Order>) {
    && |os| == |orders.Keys|
    && (forall i :: 0 <= i < |os| ==> os[i].orderCode in orders && orders[os[i].orderCode] == os[i])
    && (forall i, j :: 0 <= i < j < |os| ==> os[i].orderCode != os[j].orderCode)
  }

  /** GET `/stats/summary` over an enumeration `os` of the stored orders. */
  function StatsSummary(orders: map<string, Order>, os: seq<Order>, now: nat): (s: Summary)
    requires Enumerates(os, orders)
    ensures s.totalOrders == |orders.Keys|
    ensures s.todayOrders <= s.totalOrders
    ensures s.pendingOrders + s.washingOrders <= s.totalOrders
    ensures s.todayRevenue == SumWhere(os, (o: Order) => CreatedSince(o, DayStart(now)) && Earning(o), (o: Order) => o.price)
    ensures s.pendingOrders == CountWhere(os, (o: Order) => o.status == PENDING)
    ensures s.washingOrders == CountWhere(os, (o: Order) => o.status == WASHING)
    ensures s.todayOrders == CountWhere(os, (o: Order) => CreatedSince(o, DayStart(now)))
  {
    var start := DayStart(now);
    CountDisjoint(os, (o: Order) => o.status == PENDING, (o: Order) => o.status == WASHING);
    // `todayRevenue[0]?.total || 0`: no matching group and a zero total both give 0
    Summary(CountWhere(os, (o: Order) => CreatedSince(o, start)), |os|,
            CountWhere(os, (o: Order) => o.status == PENDING), CountWhere(os, (o: Order) => o.status == WASHING),
            SumWhere(os, (o: Order) => CreatedSince(o, start) && Earning(o), (o: Order) => o.price))
  }

  /** Revenue is 0 when no stored order created today is DONE or PICKED_UP. */
  lemma RevenueZeroWithoutEarningOrders(orders: map<string, Order>, os: seq<Order>, now: nat)
    requires Enumerates(os, orders)
    requires forall c :: c in orders ==> !(CreatedSince(orders[c], DayStart(now)) && Earning(orders[c]))
    ensures StatsSummary(orders, os, now).todayRevenue == 0
  {
    forall i | 0 <= i < |os| ensures !(CreatedSince(os[i], DayStart(now)) && Earning(os[i])) {
      assert orders[os[i].orderCode] == os[i];
    }
    SumWhereNone(os, (o: Order) => CreatedSince(o, DayStart(now)) && Earning(o), (o: Order) => o.price);
  }

  /** The summary is the same for every enumeration of the same collection. */
  lemma SummaryIgnoresEnumerationOrder(orders: map<string, Order>, a: seq<Order>, b: seq<Order>, now: nat)
    requires Enumerates(a, orders) && Enumerates(b, orders)
    requires multiset(a) == multiset(b)
    ensures StatsSummary(orders, a, now) == StatsSummary(orders, b, now)
  {
    var start := DayStart(now);
    SumWherePermutation(a, b, (o: Order) => CreatedSince(o, start) && Earning(o), (o: Order) => o.price);
    var ps: seq<Order -> bool> := [(o: Order) => CreatedSince(o, start), (o: Order) => o.status == PENDING, (o: Order) => o.status == WASHING];
    forall i | 0 <= i < 3 ensures CountWhere(a, ps[i]) == CountWhere(b, ps[i]) {
      CountIsSumOfOnes(a, ps[i]);
      CountIsSumOfOnes(b, ps[i]);
      SumWherePermutation(a, b, ps[i], (_: Order) => 1);
    }
    assert CountWhere(a, ps[0]) == CountWhere(b, ps[0]);
    assert CountWhere(a, ps[1]) == CountWhere(b, ps[1]);
    assert CountWhere(a, ps[2]) == CountWhere(b, ps[2]);
  }

  /** Storing an order under a fresh code extends an enumeration by that order. */
  lemma EnumeratesInsert(orders: map<string, Order>, os: seq<Order>, o: Order)
    requires Enumerates(os, orders) && o.orderCode !in orders
    ensures Enumerates(os + [o], orders[o.orderCode := o])
  {
    var after := orders[o.orderCode := o];
    assert after.Keys == orders.Keys + {o.orderCode};
    var t := os + [o];
    forall i | 0 <= i < |t| ensures t[i].orderCode in after && after[t[i].orderCode] == t[i] {
      if i < |os| {
        assert t[i] == os[i];
      }
    }
  }

  /** A newly created order adds one to the totals and, while PENDING, one to the pending count, and nothing to revenue. */
  lemma CreatedOrderInStats(orders: map<string, Order>, os: seq<Order>, o: Order, now: nat)
    requires Enumerates(os, orders) && o.orderCode !in orders
    requires o.status == PENDING
    ensures Enumerates(os + [o], orders[o.orderCode := o])
    ensures var before := StatsSummary(orders, os, now);
            var after := StatsSummary(orders[o.orderCode := o], os + [o], now);
            && after.totalOrders == before.totalOrders + 1
            && after.pendingOrders == before.pendingOrders + 1
            && after.washingOrders == before.washingOrders
            && after.todayRevenue == before.todayRevenue
  {
    EnumeratesInsert(orders, os, o);
    var start := DayStart(now);
    var pending: Order -> bool := (o: Order) => o.status == PENDING;
    var washing: Order -> bool := (o: Order) => o.status == WASHING;
    CountIsSumOfOnes(os + [o], pending);
    CountIsSumOfOnes(os, pending);
    CountIsSumOfOnes([o], pending);
    SumWhereAppend(os, [o], pending, (_: Order) => 1);
    CountIsSumOfOnes(os + [o], washing);
    CountIsSumOfOnes(os, washing);
    CountIsSumOfOnes([o], washing);
    SumWhereAppend(os, [o], washing, (_: Order) => 1);
    SumWhereAppend(os, [o], (o: Order) => CreatedSince(o, start) && Earning(o), (o: Order) => o.price);
    assert [o][1..] == [];
  }
}
