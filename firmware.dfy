/**
 * The washer controller: one `loop()` iteration reads the touch button, the
 * door switch and the two analog sensors and moves the cycle state machine
 * READY -> FILLING -> WASHING -> DONE, with PAUSED and ERROR_DOOR on the side.
 * Millisecond counters are 32-bit `unsigned long`s and wrap around.
 */
module Firmware {

  const Modulus: int := 0x1_0000_0000

  /** An `unsigned long` on the ESP32. */
  type U32 = x: int | 0 <= x < 0x1_0000_0000

  /** Unsigned subtraction, wrapping below zero. */
  function Sub(a: U32, b: U32): (r: U32)
    ensures a >= b ==> r == a - b
    ensures a < b ==> r == a - b + Modulus
  {
    (a - b) % Modulus
  }

  /** Unsigned addition, wrapping past the top. */
  function Add(a: U32, b: U32): (r: U32)
    ensures a + b < Modulus ==> r == a + b
  {
    (a + b) % Modulus
  }

  /** Unsigned multiplication by 100, wrapping past the top. */
  function Times100(a: U32): (r: U32)
    ensures a * 100 < Modulus ==> r == a * 100
  {
    (a * 100) % Modulus
  }

  /** Subtracting a difference back gives the difference: `now - (now - e) == e` in wrapping arithmetic. */
  lemma SubSubCancels(now: U32, e: U32)
    ensures Sub(now, Sub(now, e)) == e
  {
  }

  datatype State = READY | FILLING | WASHING | PAUSED | ERROR_DOOR | DONE

  const WashDuration: U32 := 10000
  const DirtBonus: U32 := 5000
  const DebounceMs: U32 := 500

  /** The globals `loop()` keeps between iterations, with the static `lastTouchTime`. */
  datatype Globals = Globals(
    current: State,
    previous: State,
    startTime: U32,
    finalDuration: U32,
    elapsed: U32,
    dirty: bool,
    lastTouch: U32)

  const Initial: Globals := Globals(READY, READY, 0, WashDuration, 0, false, 0)

  /**
   * One iteration's readings: `millis()`, whether the screen is touched inside the
   * button, the door switch (HIGH is open) and the raw 12-bit water and dirt readings.
   */
  datatype Inputs = Inputs(now: U32, touchOnButton: bool, doorOpen: bool, rawWater: nat, rawDirt: nat)

  /** `map(raw, 0, 4095, 0, 100)` on a reading in range. */
  function WaterLevel(raw: nat): (level: nat)
    ensures raw <= 4095 ==> level <= 100
    ensures raw == 4095 ==> level == 100
  {
    raw * 100 / 4095
  }

  /** The debounced press: a touch on the button more than `DebounceMs` after the last accepted one. */
  predicate Pressed(g: Globals, inp: Inputs)
  {
    inp.touchOnButton && Sub(inp.now, g.lastTouch) > DebounceMs
  }

  /** Block 1 of `loop()`: the button's effect by state. */
  function Touch(g: Globals, inp: Inputs): (r: Globals)
    ensures !Pressed(g, inp) ==> r == g
    ensures Pressed(g, inp) ==> r.lastTouch == inp.now
    ensures Pressed(g, inp) && g.current == READY ==> r.current == FILLING
    ensures Pressed(g, inp) && (g.current == FILLING || g.current == WASHING) ==> r.current == PAUSED && r.previous == g.current
    ensures Pressed(g, inp) && g.current == PAUSED ==> r.current == g.previous
    ensures Pressed(g, inp) && g.current == PAUSED && g.previous == WASHING ==> r.startTime == Sub(inp.now, g.elapsed)
    ensures Pressed(g, inp) && g.current == DONE ==> r.current == READY
    ensures Pressed(g, inp) && g.current == ERROR_DOOR ==> r.current == ERROR_DOOR
    ensures r.previous == if Pressed(g, inp) && (g.current == FILLING || g.current == WASHING) then g.current else g.previous
    ensures !(Pressed(g, inp) && g.current == PAUSED && g.previous == WASHING) ==> r.startTime == g.startTime
    ensures r.elapsed == g.elapsed && r.finalDuration == g.finalDuration && r.dirty == g.dirty
  {
    if !Pressed(g, inp) then g
    else
      var g := g.(lastTouch := inp.now);
      match g.current
      case READY => g.(current := FILLING)
      case FILLING => g.(previous := g.current, current := PAUSED)
      case WASHING => g.(previous := g.current, current := PAUSED)
      case PAUSED =>
        if g.previous == WASHING then g.(current := g.previous, startTime := Sub(inp.now, g.elapsed))
        else g.(current := g.previous)
      case DONE => g.(current := READY)
      case ERROR_DOOR => g
  }

  /** Block 2 of `loop()` as written: opening the door while PAUSED overwrites `previousState` with PAUSED. */
  function DoorAsWritten(g: Globals, inp: Inputs): (r: Globals)
    ensures inp.doorOpen && g.current !in {ERROR_DOOR, READY, DONE} ==> r == g.(previous := g.current, current := ERROR_DOOR)
    ensures inp.doorOpen && g.current in {ERROR_DOOR, READY, DONE} ==> r == g
    ensures !inp.doorOpen ==> r == if g.current == ERROR_DOOR then g.(current := PAUSED) else g
  {
    if inp.doorOpen then
      if g.current != ERROR_DOOR && g.current != READY && g.current != DONE then
        g.(previous := g.current, current := ERROR_DOOR)
      else g
    else if g.current == ERROR_DOOR then g.(current := PAUSED)
    else g
  }

  /**
   * Block 2 of `loop()` as intended: a door opened mid-cycle stops the machine and
   * remembers the phase to resume; when it was already PAUSED, the phase saved by the
   * pause is kept.
   */
  function Door(g: Globals, inp: Inputs): (r: Globals)
    ensures inp.doorOpen && (g.current == FILLING || g.current == WASHING) ==> r == g.(previous := g.current, current := ERROR_DOOR)
    ensures inp.doorOpen && g.current == PAUSED ==> r == g.(current := ERROR_DOOR)
    ensures inp.doorOpen && g.current in {ERROR_DOOR, READY, DONE} ==> r == g
    ensures !inp.doorOpen ==> r == if g.current == ERROR_DOOR then g.(current := PAUSED) else g
  {
    if inp.doorOpen then
      if g.current == PAUSED then g.(current := ERROR_DOOR)
      else if g.current != ERROR_DOOR && g.current != READY && g.current != DONE then
        g.(previous := g.current, current := ERROR_DOOR)
      else g
    else if g.current == ERROR_DOOR then g.(current := PAUSED)
    else g
  }

  /** `int progress = (elapsedTime * 100) / finalDuration`, capped at 100. */
  function Progress(elapsed: U32, finalDuration: U32): (p: int)
    requires finalDuration > 0
    ensures 0 <= p <= 100
  {
    var q := Times100(elapsed) / finalDuration;
    if q > 100 then 100 else q
  }

  /** Block 3 of `loop()`: the per-state logic on the state reached after blocks 1 and 2. */
  function Logic(g: Globals, inp: Inputs): (r: Globals)
    ensures g.current == READY ==> r == g.(dirty := false, finalDuration := WashDuration)
    ensures g.current == FILLING && WaterLevel(inp.rawWater) > 80 ==> r == g.(current := WASHING, startTime := inp.now, elapsed := 0)
    ensures g.current == FILLING && WaterLevel(inp.rawWater) <= 80 ==> r == g
    ensures g.current == WASHING ==> r == g.(elapsed := r.elapsed, dirty := r.dirty, finalDuration := r.finalDuration, current := r.current)
    ensures g.current == WASHING ==> r.elapsed == Sub(inp.now, g.startTime)
    ensures g.current == WASHING && !g.dirty && inp.rawDirt > 2000 ==> r.dirty && r.finalDuration == Add(g.finalDuration, DirtBonus)
    ensures g.current == WASHING && (g.dirty || inp.rawDirt <= 2000) ==> r.dirty == g.dirty && r.finalDuration == g.finalDuration
    ensures g.current == WASHING ==> (r.current == DONE <==> r.elapsed >= r.finalDuration)
    ensures g.current == WASHING && r.current != DONE ==> r.current == WASHING
    ensures g.current in {PAUSED, DONE, ERROR_DOOR} ==> r == g
  {
    match g.current
    case READY => g.(dirty := false, finalDuration := WashDuration)
    case FILLING =>
      if WaterLevel(inp.rawWater) > 80 then g.(current := WASHING, startTime := inp.now, elapsed := 0) else g
    case WASHING =>
      var g := g.(elapsed := Sub(inp.now, g.startTime));
      var g := if !g.dirty && inp.rawDirt > 2000 then g.(dirty := true, finalDuration := Add(g.finalDuration, DirtBonus)) else g;
      if g.elapsed >= g.finalDuration then g.(current := DONE) else g
    case PAUSED => g
    case DONE => g
    case ERROR_DOOR => g
  }

  /**
   * One `loop()` iteration of the corrected controller. It differs from the code as
   * written only in the remembered phase, and only when the door opens on a paused machine.
   */
  function Step(g: Globals, inp: Inputs): (r: Globals)
    ensures r == StepAsWritten(g, inp).(previous := r.previous)
    ensures !(Touch(g, inp).current == PAUSED && inp.doorOpen) ==> r == StepAsWritten(g, inp)
    ensures r.lastTouch == if Pressed(g, inp) then inp.now else g.lastTouch
  {
    Logic(Door(Touch(g, inp), inp), inp)
  }

  /** One `loop()` iteration as the source writes it: a door opened on a paused machine remembers PAUSED. */
  function StepAsWritten(g: Globals, inp: Inputs): (r: Globals)
    ensures Touch(g, inp).current == PAUSED && inp.doorOpen ==> r.current == ERROR_DOOR && r.previous == PAUSED
  {
    Logic(DoorAsWritten(Touch(g, inp), inp), inp)
  }

  /**
   * The debounce: after an accepted press, a touch no more than `DebounceMs` later is
   * ignored, in both versions of the iteration, whatever else the iteration did.
   */
  lemma DebounceSpacing(g: Globals, a: Inputs, b: Inputs)
    requires Pressed(g, a) && Sub(b.now, a.now) <= DebounceMs
    ensures Step(g, a).lastTouch == a.now && StepAsWritten(g, a).lastTouch == a.now
    ensures !Pressed(Step(g, a), b) && !Pressed(StepAsWritten(g, a), b)
  {
  }

  /** The wash time is the base time plus the dirt bonus exactly when dirt was detected. */
  ghost predicate WashInv(g: Globals)
    ensures WashInv(g) ==> g.finalDuration == 10000 || g.finalDuration == 15000
  {
    g.finalDuration == WashDuration + (if g.dirty then DirtBonus else 0)
  }

  /**
   * What every iteration of the corrected controller keeps: the wash-time invariant, and
   * a paused or door-stopped cycle remembers a phase it can resume into.
   */
  ghost predicate Inv(g: Globals) {
    && WashInv(g)
    && (g.current == PAUSED || g.current == ERROR_DOOR ==> g.previous == FILLING || g.previous == WASHING)
  }

  lemma InitialInv()
    ensures Inv(Initial)
  {
  }

  /** The corrected step keeps the invariant, whatever the readings. */
  lemma StepKeepsInv(g: Globals, inp: Inputs)
    requires Inv(g)
    ensures Inv(Step(g, inp))
  {
    var t := Touch(g, inp);
    assert Inv(t);
    var d := Door(t, inp);
    assert Inv(d);
  }

  /** The step as written keeps the wash-time invariant too: the door trap does not touch it. */
  lemma StepAsWrittenKeepsWashInv(g: Globals, inp: Inputs)
    requires WashInv(g)
    ensures WashInv(StepAsWritten(g, inp))
  {
    var d := DoorAsWritten(Touch(g, inp), inp);
    assert WashInv(d);
  }

  /** The iterations of the corrected controller from `g` over a sequence of readings. */
  function Run(g: Globals, inputs: seq<Inputs>): Globals
    decreases |inputs|
  {
    if inputs == [] then g else Run(Step(g, inputs[0]), inputs[1..])
  }

  /** One more reading is one more iteration after the others. */
  lemma {:induction false} RunSnoc(g: Globals, inputs: seq<Inputs>, inp: Inputs)
    ensures Run(g, inputs + [inp]) == Step(Run(g, inputs), inp)
    decreases |inputs|
  {
    if inputs == [] {
      assert [] + [inp] == [inp];
    } else {
      assert (inputs + [inp])[1..] == inputs[1..] + [inp];
      RunSnoc(Step(g, inputs[0]), inputs[1..], inp);
    }
  }

  /** The iterations of `loop()` as written. */
  function RunAsWritten(g: Globals, inputs: seq<Inputs>): Globals
    decreases |inputs|
  {
    if inputs == [] then g else RunAsWritten(StepAsWritten(g, inputs[0]), inputs[1..])
  }

  /** The invariant holds after any number of iterations from power-on. */
  lemma {:induction false} RunKeepsInv(g: Globals, inputs: seq<Inputs>)
    requires Inv(g)
    ensures Inv(Run(g, inputs))
    decreases |inputs|
  {
    if inputs != [] {
      StepKeepsInv(g, inputs[0]);
      RunKeepsInv(Step(g, inputs[0]), inputs[1..]);
    }
  }

  /** The wash-time invariant holds after any number of iterations of the code as written. */
  lemma {:induction false} RunAsWrittenKeepsWashInv(g: Globals, inputs: seq<Inputs>)
    requires WashInv(g)
    ensures WashInv(RunAsWritten(g, inputs))
    decreases |inputs|
  {
    if inputs != [] {
      StepAsWrittenKeepsWashInv(g, inputs[0]);
      RunAsWrittenKeepsWashInv(StepAsWritten(g, inputs[0]), inputs[1..]);
    }
  }

  /**
   * The dirt bonus is added at most once: the wash time is always 10 s or 15 s,
   * in the program as written and in the corrected one.
   */
  lemma WashTimeIsBaseOrBonus(inputs: seq<Inputs>)
    ensures RunAsWritten(Initial, inputs).finalDuration == 10000 || RunAsWritten(Initial, inputs).finalDuration == 15000
    ensures Run(Initial, inputs).finalDuration == 10000 || Run(Initial, inputs).finalDuration == 15000
  {
    RunAsWrittenKeepsWashInv(Initial, inputs);
    RunKeepsInv(Initial, inputs);
  }

  /** The progress shown while washing is within 0..100, reaching 100 once the wash time has passed. */
  lemma ProgressBounds(elapsed: U32, finalDuration: U32)
    requires finalDuration > 0
    ensures 0 <= Progress(elapsed, finalDuration) <= 100
    ensures elapsed < finalDuration && finalDuration <= 15000 ==> Progress(elapsed, finalDuration) < 100
    ensures elapsed >= finalDuration && elapsed * 100 < Modulus ==> Progress(elapsed, finalDuration) == 100
  {
    if elapsed < finalDuration && finalDuration <= 15000 {
      assert Times100(elapsed) == elapsed * 100;
      DivBelow(elapsed * 100, finalDuration);
    }
    if elapsed >= finalDuration && elapsed * 100 < Modulus {
      DivAtLeast(elapsed * 100, finalDuration);
    }
  }

  lemma DivBelow(a: nat, d: nat)
    requires d > 0 && a < d * 100
    ensures a / d < 100
  {
    assert a == (a / d) * d + a % d;
  }

  lemma DivAtLeast(a: nat, d: nat)
    requires d > 0 && a >= d * 100
    ensures a / d >= 100
  {
    assert a == (a / d) * d + a % d;
  }

  /** With the invariant, a press while PAUSED with the door shut resumes the cycle. */
  lemma PressResumes(g: Globals, inp: Inputs)
    requires Inv(g) && g.current == PAUSED && Pressed(g, inp) && !inp.doorOpen
    ensures Step(g, inp).current in {FILLING, WASHING, DONE}
  {
  }

  /** Resuming a paused wash keeps the wash time already spent: the next elapsed value is the saved one. */
  lemma ResumeKeepsElapsed(g: Globals, inp: Inputs)
    requires g.current == PAUSED && g.previous == WASHING && Pressed(g, inp) && !inp.doorOpen
    ensures Step(g, inp).elapsed == g.elapsed
  {
    SubSubCancels(inp.now, g.elapsed);
  }

  /** A door closed on an ERROR_DOOR machine always leaves it PAUSED. */
  lemma DoorClosedPauses(g: Globals, inp: Inputs)
    requires g.current == ERROR_DOOR && !inp.doorOpen
    ensures Step(g, inp).current == PAUSED
  {
  }

  /** Filling turns into washing only above 80 percent water, with the wash clock started at zero. */
  lemma FillingToWashing(g: Globals, inp: Inputs)
    requires g.current == FILLING && !Pressed(g, inp) && !inp.doorOpen
    ensures Step(g, inp).current == WASHING <==> WaterLevel(inp.rawWater) > 80
    ensures WaterLevel(inp.rawWater) > 80 ==> Step(g, inp).elapsed == 0 && Step(g, inp).startTime == inp.now
  {
  }

  /** The states in which the as-written controller is stuck: paused or door-stopped with PAUSED remembered. */
  predicate Trapped(g: Globals) {
    (g.current == PAUSED || g.current == ERROR_DOOR) && g.previous == PAUSED
  }

  /** As written, a trapped controller stays trapped whatever the readings: no press ever resumes it. */
  lemma TrappedAsWritten(g: Globals, inp: Inputs)
    requires Trapped(g)
    ensures Trapped(StepAsWritten(g, inp))
  {
  }

  /** As written, a trapped controller stays trapped for any number of iterations: only power-off frees it. */
  lemma {:induction false} TrappedForeverAsWritten(g: Globals, inputs: seq<Inputs>)
    requires Trapped(g)
    ensures Trapped(RunAsWritten(g, inputs))
    decreases |inputs|
  {
    if inputs != [] {
      TrappedAsWritten(g, inputs[0]);
      TrappedForeverAsWritten(StepAsWritten(g, inputs[0]), inputs[1..]);
    }
  }

  /** As written, opening the door of a paused wash traps the controller. */
  lemma DoorWhilePausedTrapsAsWritten(g: Globals, inp: Inputs)
    requires g.current == PAUSED && g.previous == WASHING && inp.doorOpen && !Pressed(g, inp)
    ensures Trapped(StepAsWritten(g, inp))
    ensures !Trapped(Step(g, inp)) && Step(g, inp).previous == WASHING
  {
  }

  /** A concrete run: pause a wash, open and close the door, press the button. */
  lemma PausedDoorCounterexample()
    ensures var g := Globals(PAUSED, WASHING, 1000, WashDuration, 3000, false, 5000);
            var open := Inputs(6000, false, true, 0, 0);
            var shut := Inputs(7000, false, false, 0, 0);
            var press := Inputs(8000, true, false, 0, 0);
            && StepAsWritten(StepAsWritten(StepAsWritten(g, open), shut), press).current == PAUSED
            && Step(Step(Step(g, open), shut), press).current == WASHING
  {
  }

  /** The controller's globals, updated in place by each `loop()` iteration. */
  class Controller {
    var current: State
    var previous: State
    var startTime: U32
    var finalDuration: U32
    var elapsed: U32
    var dirty: bool
    var lastTouch: U32

    /** The globals as one value. */
    function Snapshot(): Globals
      reads this
    {
      Globals(current, previous, startTime, finalDuration, elapsed, dirty, lastTouch)
    }

    ghost predicate Valid()
      reads this
    {
      Inv(Snapshot())
    }

    /** The power-on values of the globals. */
    constructor ()
      ensures Snapshot() == Initial
      ensures Valid()
    {
      current, previous := READY, READY;
      startTime, finalDuration, elapsed := 0, WashDuration, 0;
      dirty, lastTouch := false, 0;
    }

    /** Block 1: the debounced button. */
    method TouchBlock(inp: Inputs)
      modifies this
      ensures Snapshot() == Touch(old(Snapshot()), inp)
    {
      if inp.touchOnButton && Sub(inp.now, lastTouch) > DebounceMs {
        lastTouch := inp.now;
        if current == READY {
          current := FILLING;
        } else if current == FILLING || current == WASHING {
          previous := current;
          current := PAUSED;
        } else if current == PAUSED {
          current := previous;
          if current == WASHING {
            startTime := Sub(inp.now, elapsed);
          }
        } else if current == DONE {
          current := READY;
        }
      }
    }

    /** Block 2: the door switch, with the phase remembered by a pause kept. */
    method DoorBlock(inp: Inputs)
      modifies this
      ensures Snapshot() == Door(old(Snapshot()), inp)
    {
      if inp.doorOpen {
        if current == PAUSED {
          current := ERROR_DOOR;
        } else if current != ERROR_DOOR && current != READY && current != DONE {
          previous := current;
          current := ERROR_DOOR;
        }
      } else if current == ERROR_DOOR {
        current := PAUSED;
      }
    }

    /** Block 3: the per-state logic. */
    method LogicBlock(inp: Inputs)
      modifies this
      ensures Snapshot() == Logic(old(Snapshot()), inp)
    {
      match current
      case READY =>
        dirty := false;
        finalDuration := WashDuration;
      case FILLING =>
        if WaterLevel(inp.rawWater) > 80 {
          current := WASHING;
          startTime := inp.now;
          elapsed := 0;
        }
      case WASHING =>
        elapsed := Sub(inp.now, startTime);
        if !dirty && inp.rawDirt > 2000 {
          dirty := true;
          finalDuration := Add(finalDuration, DirtBonus);
        }
        if elapsed >= finalDuration {
          current := DONE;
        }
      case PAUSED =>
      case DONE =>
      case ERROR_DOOR =>
    }

    /** One `loop()` iteration: touch, then door, then the per-state logic. */
    method Loop(inp: Inputs)
      requires Valid()
      modifies this
      ensures Valid()
      ensures Snapshot() == Step(old(Snapshot()), inp)
    {
      StepKeepsInv(Snapshot(), inp);
      TouchBlock(inp);
      DoorBlock(inp);
      LogicBlock(inp);
    }

    /** The firmware's main loop: `loop()` called once per reading, in order. */
    method RunLoop(inputs: seq<Inputs>)
      requires Valid()
      modifies this
      ensures Valid()
      ensures Snapshot() == Run(old(Snapshot()), inputs)
    {
      for i := 0 to |inputs|
        invariant Valid()
        invariant Snapshot() == Run(old(Snapshot()), inputs[..i])
      {
        RunSnoc(old(Snapshot()), inputs[..i], inputs[i]);
        assert inputs[..i + 1] == inputs[..i] + [inputs[i]];
        Loop(inputs[i]);
      }
      assert inputs[..|inputs|] == inputs;
    }
  }
}
