/**
 * The machine routes: the PAUSE, RESUME and RESET commands, the maintenance
 * switch, renaming and the one-off initialisation of the four machines.
 */
module MachineRoutes {
  import opened Wrappers
  import opened Strings
  import opened MachineModel
  import opened Database
  import opened MqttService
  import opened OrderRoutes

  /** Every field of the store other than the command log is as it was. */
  twostate predicate OnlyCommandsChanged(st: Store)
    reads st
  {
    && st.machines == old(st.machines) && st.orders == old(st.orders) && st.events == old(st.events)
    && st.notifications == old(st.notifications) && st.nextNotificationId == old(st.nextNotificationId)
    && st.outbox == old(st.outbox)
  }

  /** POST `/:machineId/pause`: 404 for an unknown machine, 400 unless RUNNING, else one PAUSE command. */
  method Pause(st: Store, machineId: string) returns (reply: Reply)
    requires st.Valid()
    modifies st
    ensures st.Valid()
    ensures reply == Ok || reply == NotFound || reply == BadRequest
    ensures reply == NotFound <==> machineId !in old(st.machines)
    ensures reply == BadRequest <==> machineId in old(st.machines) && old(st.machines)[machineId].status != RUNNING
    ensures reply != Ok ==> unchanged(st)
    ensures reply == Ok ==> OnlyCommandsChanged(st)
                            && st.commands == old(st.commands) + [Published(CommandTopic(machineId), map["command" := "PAUSE"])]
  {
    if machineId !in st.machines {
      return NotFound;
    }
    if st.machines[machineId].status != RUNNING {
      return BadRequest;
    }
    SendCommand(st, machineId, "PAUSE", map[]);
    assert CommandPayload("PAUSE", map[]) == map["command" := "PAUSE"];
    reply := Ok;
  }

  /** POST `/:machineId/resume`: one RESUME command for any stored machine, whatever its status. */
  method Resume(st: Store, machineId: string) returns (reply: Reply)
    requires st.Valid()
    modifies st
    ensures st.Valid()
    ensures reply == Ok || reply == NotFound
    ensures reply == NotFound <==> machineId !in old(st.machines)
    ensures reply == NotFound ==> unchanged(st)
    ensures reply == Ok ==> OnlyCommandsChanged(st)
                            && st.commands == old(st.commands) + [Published(CommandTopic(machineId), map["command" := "RESUME"])]
  {
    if machineId !in st.machines {
      return NotFound;
    }
    SendCommand(st, machineId, "RESUME", map[]);
    assert CommandPayload("RESUME", map[]) == map["command" := "RESUME"];
    reply := Ok;
  }

  /** The record update of `/reset`: free again, with no current order; stats and snapshot stay. */
  function ResetMachine(m: Machine): (r: Machine)
    ensures r.status == AVAILABLE && r.currentOrderCode == None
    ensures r.id == m.id && r.name == m.name && r.realtime == m.realtime && r.stats == m.stats && r.createdAt == m.createdAt
  {
    m.(status := AVAILABLE, currentOrderCode := None)
  }

  /**
   * POST `/:machineId/reset`: a RESET command, the machine freed in the store and one
   * `machineUpdated` emission; the order it was running is not touched.
   */
  method Reset(st: Store, machineId: string) returns (reply: Reply)
    requires st.Valid()
    modifies st
    ensures st.Valid()
    ensures reply == Ok || reply == NotFound
    ensures reply == NotFound <==> machineId !in old(st.machines)
    ensures reply == NotFound ==> unchanged(st)
    ensures reply == Ok ==>
      && st.commands == old(st.commands) + [Published(CommandTopic(machineId), map["command" := "RESET"])]
      && st.machines == old(st.machines)[machineId := ResetMachine(old(st.machines)[machineId])]
      && st.events == old(st.events) + [MachineUpdated(ResetMachine(old(st.machines)[machineId]))]
      && st.orders == old(st.orders) && st.outbox == old(st.outbox)
      && st.notifications == old(st.notifications) && st.nextNotificationId == old(st.nextNotificationId)
  {
    if machineId !in st.machines {
      return NotFound;
    }
    SendCommand(st, machineId, "RESET", map[]);
    assert CommandPayload("RESET", map[]) == map["command" := "RESET"];
    var m := ResetMachine(st.machines[machineId]);
    MachinesKeyedUpdate(st.machines, machineId, m);
    st.machines := st.machines[machineId := m];
    st.events := st.events + [MachineUpdated(m)];
    reply := Ok;
  }

  /** The record update of `/maintenance`: MAINTENANCE when enabling, AVAILABLE when disabling. */
  function SetMaintenance(m: Machine, enable: bool): (r: Machine)
    ensures enable ==> r.status == MAINTENANCE
    ensures !enable ==> r.status == AVAILABLE
    ensures r == m.(status := r.status)
  {
    m.(status := if enable then MAINTENANCE else AVAILABLE)
  }

  /**
   * POST `/:machineId/maintenance`: enabling it on a RUNNING machine is refused; otherwise
   * the status is switched from whatever it was and the machine is emitted.
   */
  method Maintenance(st: Store, machineId: string, enable: bool) returns (reply: Reply)
    requires st.Valid()
    modifies st
    ensures st.Valid()
    ensures reply == Ok || reply == NotFound || reply == BadRequest
    ensures reply == NotFound <==> machineId !in old(st.machines)
    ensures reply == BadRequest <==> machineId in old(st.machines) && enable && old(st.machines)[machineId].status == RUNNING
    ensures reply != Ok ==> unchanged(st)
    ensures reply == Ok ==>
      && st.machines == old(st.machines)[machineId := SetMaintenance(old(st.machines)[machineId], enable)]
      && st.events == old(st.events) + [MachineUpdated(SetMaintenance(old(st.machines)[machineId], enable))]
      && st.orders == old(st.orders) && st.outbox == old(st.outbox) && st.commands == old(st.commands)
      && st.notifications == old(st.notifications) && st.nextNotificationId == old(st.nextNotificationId)
  {
    if machineId !in st.machines {
      return NotFound;
    }
    if enable && st.machines[machineId].status == RUNNING {
      return BadRequest;
    }
    var m := SetMaintenance(st.machines[machineId], enable);
    MachinesKeyedUpdate(st.machines, machineId, m);
    st.machines := st.machines[machineId := m];
    st.events := st.events + [MachineUpdated(m)];
    reply := Ok;
  }

  /** The update `{ name }`: an absent name is dropped from the update and changes nothing. */
  function Renamed(m: Machine, name: Option<string>): (r: Machine)
    ensures name.Some? ==> r.name == name.value
    ensures name.None? ==> r == m
    ensures r == m.(name := r.name)
  {
    if name.Some? then m.(name := name.value) else m
  }

  /** PATCH `/:machineId`: only the name of a stored machine changes. */
  method Rename(st: Store, machineId: string, name: Option<string>) returns (reply: Reply)
    requires st.Valid()
    modifies st
    ensures st.Valid()
    ensures reply == Ok || reply == NotFound
    ensures reply == NotFound <==> machineId !in old(st.machines)
    ensures reply == NotFound ==> unchanged(st)
    ensures reply == Ok ==>
      && st.machines == old(st.machines)[machineId := Renamed(old(st.machines)[machineId], name)]
      && st.orders == old(st.orders) && st.outbox == old(st.outbox) && st.commands == old(st.commands)
      && st.events == old(st.events)
      && st.notifications == old(st.notifications) && st.nextNotificationId == old(st.nextNotificationId)
  {
    if machineId !in st.machines {
      return NotFound;
    }
    var m := Renamed(st.machines[machineId], name);
    MachinesKeyedUpdate(st.machines, machineId, m);
    st.machines := st.machines[machineId := m];
    reply := Ok;
  }

  /** One machine `/init` provisions: its id and its display name. */
  datatype Seed = Seed(id: string, name: string)

  const InitialMachines: seq<Seed> := [
    Seed("MACHINE_01", "Máy giặt 1"), Seed("MACHINE_02", "Máy giặt 2"),
    Seed("MACHINE_03", "Máy giặt 3"), Seed("MACHINE_04", "Máy giặt 4")]

  /** `findOneAndUpdate({_id}, {$setOnInsert: m}, {upsert: true})`: insert when absent, else keep. */
  function Upsert(machines: map<string, Machine>, s: Seed, now: nat): (r: map<string, Machine>)
    ensures s.id in machines ==> r == machines
    ensures s.id !in machines ==> r == machines[s.id := NewMachine(s.id, s.name, now)]
  {
    if s.id in machines then machines else machines[s.id := NewMachine(s.id, s.name, now)]
  }

  /** The ids the seeds name. */
  function Ids(seeds: seq<Seed>): set<string> {
    if seeds == [] then {} else {seeds[0].id} + Ids(seeds[1..])
  }

  lemma {:induction false} InIds(seeds: seq<Seed>, i: int)
    requires 0 <= i < |seeds|
    ensures seeds[i].id in Ids(seeds)
  {
    if i > 0 {
      InIds(seeds[1..], i - 1);
    }
  }

  /** The name of the first seed with the given id: the one an upsert sequence inserts. */
  function FirstName(seeds: seq<Seed>, id: string): string
    requires id in Ids(seeds)
  {
    if seeds[0].id == id then seeds[0].name else FirstName(seeds[1..], id)
  }

  /** The machines after upserting every seed in turn. */
  function UpsertAll(machines: map<string, Machine>, seeds: seq<Seed>, now: nat): (r: map<string, Machine>)
    ensures r.Keys == machines.Keys + Ids(seeds)
    ensures forall id :: id in machines ==> r[id] == machines[id]
    ensures forall id :: id in r && id !in machines ==> r[id] == NewMachine(id, FirstName(seeds, id), now)
    decreases |seeds|
  {
    if seeds == [] then machines else UpsertAll(Upsert(machines, seeds[0], now), seeds[1..], now)
  }

  /** Running `/init` again changes nothing, whenever it runs: it is idempotent. */
  lemma UpsertAllIdempotent(machines: map<string, Machine>, seeds: seq<Seed>, t1: nat, t2: nat)
    ensures UpsertAll(UpsertAll(machines, seeds, t1), seeds, t2) == UpsertAll(machines, seeds, t1)
  {
    var once := UpsertAll(machines, seeds, t1);
    var twice := UpsertAll(once, seeds, t2);
    assert twice.Keys == once.Keys;
  }

  /** The `for (const m of machines)` loop of `/init`: one upsert per seed, in order. */
  method UpsertSeeds(st: Store, seeds: seq<Seed>, now: nat)
    requires st.Valid()
    modifies st
    ensures st.Valid()
    ensures st.machines == UpsertAll(old(st.machines), seeds, now)
    ensures st.orders == old(st.orders) && st.outbox == old(st.outbox) && st.commands == old(st.commands)
    ensures st.events == old(st.events)
    ensures st.notifications == old(st.notifications) && st.nextNotificationId == old(st.nextNotificationId)
  {
    for i := 0 to |seeds|
      invariant UpsertAll(st.machines, seeds[i..], now) == UpsertAll(old(st.machines), seeds, now)
      invariant st.Valid()
      invariant st.orders == old(st.orders) && st.outbox == old(st.outbox) && st.commands == old(st.commands)
      invariant st.events == old(st.events)
      invariant st.notifications == old(st.notifications) && st.nextNotificationId == old(st.nextNotificationId)
    {
      var s := seeds[i];
      if s.id !in st.machines {
        MachinesKeyedUpdate(st.machines, s.id, NewMachine(s.id, s.name, now));
      }
      assert seeds[i..][1..] == seeds[i + 1..];
      st.machines := Upsert(st.machines, s, now);
    }
    assert seeds[|seeds|..] == [];
  }

  /** POST `/init`: upsert the four machines; stored ones are left as they are and all four exist after. */
  method Init(st: Store, now: nat) returns (reply: Reply)
    requires st.Valid()
    modifies st
    ensures st.Valid()
    ensures reply == Ok
    ensures st.machines == UpsertAll(old(st.machines), InitialMachines, now)
    ensures forall i :: 0 <= i < |InitialMachines| ==> InitialMachines[i].id in st.machines
    ensures forall id :: id in old(st.machines) ==> st.machines[id] == old(st.machines)[id]
    ensures st.orders == old(st.orders) && st.outbox == old(st.outbox) && st.commands == old(st.commands)
    ensures st.events == old(st.events)
    ensures st.notifications == old(st.notifications) && st.nextNotificationId == old(st.nextNotificationId)
  {
    UpsertSeeds(st, InitialMachines, now);
    forall i | 0 <= i < |InitialMachines| ensures InitialMachines[i].id in st.machines {
      InIds(InitialMachines, i);
    }
    reply := Ok;
  }

  /** Switching maintenance on and then starting an order there: the start is always 400 and changes nothing. */
  method MaintenanceBlocksStart(st: Store, machineId: string, rawCode: string, now: nat) returns (switched: Reply, started: Reply)
    requires st.Valid()
    modifies st
    ensures st.Valid()
    ensures started == BadRequest
    ensures switched != Ok ==> unchanged(st)
    ensures switched == Ok ==>
      && machineId in old(st.machines)
      && st.machines == old(st.machines)[machineId := SetMaintenance(old(st.machines)[machineId], true)]
      && st.orders == old(st.orders) && st.commands == old(st.commands) && st.outbox == old(st.outbox)
  {
    switched := Maintenance(st, machineId, true);
    started := StartOrder(st, rawCode, machineId, now);
  }

  /** A reset machine takes an order again: the start after it is refused only for an unknown code. */
  method ResetAllowsStart(st: Store, machineId: string, rawCode: string, now: nat) returns (reset: Reply, started: Reply)
    requires st.Valid()
    modifies st
    ensures st.Valid()
    ensures reset == Ok ==> started != BadRequest
    ensures reset == Ok ==> (started == Ok <==> ToUpper(rawCode) in old(st.orders))
  {
    reset := Reset(st, machineId);
    started := StartOrder(st, rawCode, machineId, now);
  }
}
