/**
 * The Machine record: status domain, realtime snapshot and statistics with
 * their schema defaults, the default display name and the daily reset of the
 * cycle counter.
 */
module MachineModel {
  import opened Wrappers
  import opened Strings

  datatype MachineStatus = AVAILABLE | RUNNING | ERROR | MAINTENANCE | OFFLINE

  /** The last telemetry snapshot; `mode` is None when the device did not send one. */
  datatype Realtime = Realtime(
    state: string,
    progress: int,
    waterLevel: int,
    mode: Option<string>,
    doorOpen: bool,
    errorCode: Option<string>,
    lastUpdate: nat)

  datatype Stats = Stats(totalCycles: int, todayCycles: int, lastResetDate: nat)

  datatype Machine = Machine(
    id: string,
    name: string,
    status: MachineStatus,
    currentOrderCode: Option<string>,
    realtime: Realtime,
    stats: Stats,
    createdAt: nat)

  /** The schema's default name: "Máy " followed by the id with its first "MACHINE_" turned into "#". */
  function DefaultName(id: string): (name: string)
    ensures |name| >= 4 && name[..4] == "Máy "
  {
    "Máy " + ReplaceFirst(id, "MACHINE_", "#")
  }

  /** For the usual ids, "MACHINE_" followed by a number, the default name is "Máy #" and that number. */
  lemma DefaultNameOfNumberedId(n: string)
    ensures DefaultName("MACHINE_" + n) == "Máy #" + n
  {
    ReplaceFirstOfPrefixed("MACHINE_", n, "#");
    assert "Máy " + ("#" + n) == "Máy #" + n;
  }

  /** An id without "MACHINE_" in it is kept whole after "Máy ". */
  lemma DefaultNameOfOtherId(id: string)
    requires !Contains(id, "MACHINE_")
    ensures DefaultName(id) == "Máy " + id
  {
    ReplaceFirstWithoutOccurrence(id, "MACHINE_", "#");
  }

  function DefaultRealtime(now: nat): (r: Realtime)
    ensures r.state == "POWER_OFF" && r.progress == 0 && r.waterLevel == 0
    ensures r.mode == Some("NORMAL") && !r.doorOpen && r.errorCode == None
    ensures r.lastUpdate == now
  {
    Realtime("POWER_OFF", 0, 0, Some("NORMAL"), false, None, now)
  }

  /** A freshly constructed machine document: everything but id and name takes its schema default. */
  function NewMachine(id: string, name: string, now: nat): (m: Machine)
    ensures m.id == id && m.name == name
    ensures m.status == OFFLINE && m.currentOrderCode == None
    ensures m.realtime == DefaultRealtime(now)
    ensures m.stats == Stats(0, 0, now) && m.createdAt == now
  {
    Machine(id, name, OFFLINE, None, DefaultRealtime(now), Stats(0, 0, now), now)
  }

  const MsPerDay: nat := 86400000

  /** `toDateString()` compared as a day number (time zone left out). */
  function DayOf(t: nat): (d: nat)
    ensures d * MsPerDay <= t < (d + 1) * MsPerDay
  {
    t / MsPerDay
  }

  /** `machine.checkDailyReset()`: a new day clears today's count and stamps the reset. */
  function CheckDailyReset(m: Machine, now: nat): (r: Machine)
    ensures r.id == m.id && r.name == m.name && r.status == m.status
    ensures r.currentOrderCode == m.currentOrderCode && r.realtime == m.realtime && r.createdAt == m.createdAt
    ensures r.stats.totalCycles == m.stats.totalCycles
    ensures DayOf(now) != DayOf(m.stats.lastResetDate) ==> r.stats.todayCycles == 0 && r.stats.lastResetDate == now
    ensures DayOf(now) == DayOf(m.stats.lastResetDate) ==> r == m
  {
    if DayOf(now) != DayOf(m.stats.lastResetDate) then
      m.(stats := m.stats.(todayCycles := 0, lastResetDate := now))
    else
      m
  }

  /** A second check on the same day changes nothing. */
  lemma CheckDailyResetIdempotent(m: Machine, t1: nat, t2: nat)
    requires DayOf(t1) == DayOf(t2)
    ensures CheckDailyReset(CheckDailyReset(m, t1), t2) == CheckDailyReset(m, t1)
  {
  }
}
