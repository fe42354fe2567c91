/**
 * The controller's per-message step: pick a command from the current state,
 * update the remembered cut, then advance the state from the same message.
 * The state and the remembered cut are the mower's only memory.
 */
module Agent {
  import opened Commands
  import opened Fsm
  import Seek
  import Navigation

  /** What one sensor message tells the decision logic. */
  datatype Sensors = Sensors(i: int, j: int, grass: Seek.Neighbours, battery: real)

  /** The memory kept between messages. */
  datatype Memory = Memory(state: State, lastcutI: int, lastcutJ: int)

  /** Coordinate of the remembered cut while none is recorded. */
  const NoCut: int := -1
  /** The command sent when no state behaviour chose one. */
  const NoCommand: int := -1

  const Initial: Memory := Memory(SeekForGrass, NoCut, NoCut)

  /** What the current state does with a message: its command and the remembered cut afterwards. */
  datatype Decision = Decision(command: int, lastcutI: int, lastcutJ: int)

  function Decide(m: Memory, s: Sensors): (d: Decision)
    ensures m.state != Error ==> IsCommand(d.command)
    ensures m.state == Error ==> d.command == NoCommand
    ensures m.state == StoreLastCut ==> d.lastcutI == s.i && d.lastcutJ == s.j
    ensures m.state == SeekForGrass ==> d.lastcutI == NoCut && d.lastcutJ == NoCut
    ensures m.state != StoreLastCut && m.state != SeekForGrass ==> d.lastcutI == m.lastcutI && d.lastcutJ == m.lastcutJ
  {
    match m.state
    case SeekForGrass => Decision(Seek.BestDirection(s.grass), NoCut, NoCut)
    case StoreLastCut => Decision(Navigation.ReturnToCharge(s.i, s.j), s.i, s.j)
    case ReturnToCharge => Decision(Navigation.ReturnToCharge(s.i, s.j), m.lastcutI, m.lastcutJ)
    case StayAndCharge => Decision(MoveStay, m.lastcutI, m.lastcutJ)
    case ReturnToLastCut =>
      Decision(Navigation.ReturnToLastCut(s.i, s.j, m.lastcutI, m.lastcutJ), m.lastcutI, m.lastcutJ)
    case Error => Decision(NoCommand, m.lastcutI, m.lastcutJ)
  }

  /** The command sent for one message and the memory for the next. */
  datatype Outcome = Outcome(command: int, next: Memory)

  /**
   * One message: the command comes from the state before the message; the new
   * state is computed from the same message and the updated cut memory. Every
   * state but the error state sends a valid command.
   */
  function Tick(m: Memory, s: Sensors): (t: Outcome)
    ensures t.command == NoCommand <==> m.state == Error
    ensures m.state != Error ==> IsCommand(t.command)
    ensures t.next.state == m.state || t.next.state == Successor(m.state)
  {
    var d := Decide(m, s);
    Outcome(d.command, Memory(UpdateState(m.state, s.battery, s.i, s.j, d.lastcutI, d.lastcutJ), d.lastcutI, d.lastcutJ))
  }

  /** Mowing: climb the grass, forget any cut, and stop for a low battery. */
  lemma SeekTick(m: Memory, s: Sensors)
    requires m.state == SeekForGrass
    ensures Tick(m, s).command == Seek.BestDirection(s.grass)
    ensures Tick(m, s).next == Memory(if s.battery < LowBattery then StoreLastCut else SeekForGrass, NoCut, NoCut)
  {
  }

  /** Storing the cut records the current cell, already heads home, and moves on to the drive home. */
  lemma StoreTick(m: Memory, s: Sensors)
    requires m.state == StoreLastCut
    ensures Tick(m, s) == Outcome(Navigation.ReturnToCharge(s.i, s.j), Memory(ReturnToCharge, s.i, s.j))
  {
  }

  /** Driving home keeps the cut and stops at the station. */
  lemma ReturnToChargeTick(m: Memory, s: Sensors)
    requires m.state == ReturnToCharge
    ensures Tick(m, s).command == Navigation.ReturnToCharge(s.i, s.j)
    ensures Tick(m, s).next == m.(state := if s.i == 0 && s.j == 0 then StayAndCharge else ReturnToCharge)
  {
  }

  /** Charging stays put, keeps the cut, and ends at a full battery. */
  lemma StayAndChargeTick(m: Memory, s: Sensors)
    requires m.state == StayAndCharge
    ensures Tick(m, s).command == MoveStay
    ensures Tick(m, s).next == m.(state := if s.battery < FullBattery then StayAndCharge else ReturnToLastCut)
  {
  }

  /**
   * Driving back keeps the cut and resumes mowing on it. Because the command
   * comes from the old state, the message that finds the mower on the cut still
   * sends the drive-back command, which there is top-left.
   */
  lemma ReturnToLastCutTick(m: Memory, s: Sensors)
    requires m.state == ReturnToLastCut
    ensures Tick(m, s).command == Navigation.ReturnToLastCut(s.i, s.j, m.lastcutI, m.lastcutJ)
    ensures Tick(m, s).next == m.(state := if s.i == m.lastcutI && s.j == m.lastcutJ then SeekForGrass else ReturnToLastCut)
    ensures s.i == m.lastcutI && s.j == m.lastcutJ ==> Tick(m, s).command == MoveTopLeft
  {
  }

  /** The error state sends no command and changes nothing. */
  lemma ErrorTick(m: Memory, s: Sensors)
    requires m.state == Error
    ensures Tick(m, s) == Outcome(NoCommand, m)
  {
  }

  /** The new state would be the same had it been computed from the cut memory before the update. */
  lemma TickStateIgnoresCutUpdate(m: Memory, s: Sensors)
    ensures Tick(m, s).next.state == UpdateState(m.state, s.battery, s.i, s.j, m.lastcutI, m.lastcutJ)
  {
  }

  /** Storing the cut at (5, 7) remembers (5, 7) and heads home. */
  lemma StoreAtFiveSeven(m: Memory, s: Sensors)
    requires m.state == StoreLastCut && s.i == 5 && s.j == 7
    ensures Tick(m, s).next == Memory(ReturnToCharge, 5, 7)
  {
  }

  /**
   * A battery of 0.39 while mowing still mows on this message, then stores the
   * cut, and only the message after that starts the drive home.
   */
  lemma LowBatteryTakesTwoTicks(m: Memory, s: Sensors, s': Sensors)
    requires m.state == SeekForGrass && s.battery == 0.39
    ensures Tick(m, s).command == Seek.BestDirection(s.grass)
    ensures Tick(m, s).next == Memory(StoreLastCut, NoCut, NoCut)
    ensures Tick(Tick(m, s).next, s') == Outcome(Navigation.ReturnToCharge(s'.i, s'.j), Memory(ReturnToCharge, s'.i, s'.j))
  {
  }

  /** A message whose position lies on the grid. */
  predicate OnGrid(s: Sensors) {
    s.i >= 0 && s.j >= 0
  }

  /**
   * What holds of the memory on every message the controller handles: never the
   * error state, no cut while about to store one, and a recorded cell of the
   * grid whenever the mower is away from mowing.
   */
  predicate Reachable(m: Memory) {
    && m.state != Error
    && (m.state == StoreLastCut ==> m.lastcutI == NoCut && m.lastcutJ == NoCut)
    && (m.state in {ReturnToCharge, StayAndCharge, ReturnToLastCut} ==> m.lastcutI >= 0 && m.lastcutJ >= 0)
  }

  lemma InitialIsReachable()
    ensures Reachable(Initial)
  {
  }

  /** One message on the grid keeps the memory reachable. */
  lemma TickKeepsReachable(m: Memory, s: Sensors)
    requires Reachable(m) && OnGrid(s)
    ensures Reachable(Tick(m, s).next)
  {
  }

  /** The commands sent for a sequence of messages, and the memory afterwards. */
  datatype Trace = Trace(commands: seq<int>, last: Memory)

  /** Handling messages `ss` in order from memory `m`; one command per message. */
  function Run(m: Memory, ss: seq<Sensors>): (r: Trace)
    ensures |r.commands| == |ss|
    decreases |ss|
  {
    if ss == [] then Trace([], m)
    else
      var t := Tick(m, ss[0]);
      var rest := Run(t.next, ss[1..]);
      Trace([t.command] + rest.commands, rest.last)
  }

  /** Away from the error state, every command sent is one of the nine valid ones and the error state is never entered. */
  lemma {:induction false} RunNeverErrs(m: Memory, ss: seq<Sensors>)
    requires m.state != Error
    ensures Run(m, ss).last.state != Error
    ensures forall k :: 0 <= k < |ss| ==> IsCommand(Run(m, ss).commands[k])
    decreases |ss|
  {
    if ss != [] {
      RunNeverErrs(Tick(m, ss[0]).next, ss[1..]);
    }
  }

  /** Messages on the grid keep the memory reachable. */
  lemma {:induction false} RunKeepsReachable(m: Memory, ss: seq<Sensors>)
    requires Reachable(m)
    requires forall k :: 0 <= k < |ss| ==> OnGrid(ss[k])
    ensures Reachable(Run(m, ss).last)
    decreases |ss|
  {
    if ss != [] {
      TickKeepsReachable(m, ss[0]);
      RunKeepsReachable(Tick(m, ss[0]).next, ss[1..]);
    }
  }

  /**
   * Once charged, the drive back works: in a reachable memory that is charging
   * or driving back, the remembered cut lies on the grid, so the drive-back
   * moves lead from the station (0, 0) to the cut in as many ticks as the
   * larger of its coordinates.
   */
  lemma DriveBackFromStationReachesCut(m: Memory)
    requires Reachable(m) && (m.state == StayAndCharge || m.state == ReturnToLastCut)
    ensures m.lastcutI >= 0 && m.lastcutJ >= 0
    ensures Navigation.LastCutWalk(Cell(0, 0), Cell(m.lastcutI, m.lastcutJ), Navigation.Max(m.lastcutI, m.lastcutJ))
      == Cell(m.lastcutI, m.lastcutJ)
  {
    Navigation.LastCutWalkArrives(Cell(0, 0), Cell(m.lastcutI, m.lastcutJ));
  }

  /** The controller's memory and its handler for sensor messages. */
  class LawnMower {
    var state: State
    var lastcutI: int
    var lastcutJ: int

    function Snapshot(): Memory
      reads this
    {
      Memory(state, lastcutI, lastcutJ)
    }

    ghost predicate Valid()
      reads this
    {
      Reachable(Snapshot())
    }

    /** Start mowing with no cut recorded. */
    constructor ()
      ensures Snapshot() == Initial
      ensures Valid()
    {
      state := SeekForGrass;
      lastcutI := NoCut;
      lastcutJ := NoCut;
    }

    /** Handle one sensor message and return the command to send. */
    method Step(s: Sensors) returns (command: int)
      modifies this
      ensures command == Tick(old(Snapshot()), s).command
      ensures Snapshot() == Tick(old(Snapshot()), s).next
      ensures old(Valid()) && OnGrid(s) ==> Valid()
    {
      ghost var before := Snapshot();
      command := NoCommand;
      match state {
        case SeekForGrass =>
          lastcutI := NoCut;
          lastcutJ := NoCut;
          command := Seek.SeekForGrass(s.grass);
        case StoreLastCut =>
          lastcutI := s.i;
          lastcutJ := s.j;
          command := Navigation.ReturnToCharge(s.i, s.j);
        case ReturnToCharge =>
          command := Navigation.ReturnToCharge(s.i, s.j);
        case StayAndCharge =>
          command := MoveStay;
        case ReturnToLastCut =>
          command := Navigation.ReturnToLastCut(s.i, s.j, lastcutI, lastcutJ);
        case Error =>
      }
      state := UpdateState(state, s.battery, s.i, s.j, lastcutI, lastcutJ);
      if Reachable(before) && OnGrid(s) {
        TickKeepsReachable(before, s);
      }
    }
  }
}
