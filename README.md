# Lawn-mower decision engine

A Dafny model of the controller in `src/tme290-lawnmower.cpp`: the reactive
agent that, on every sensor message from the grass-cutting simulator, sends
one of nine commands (stay, or a move to one of the eight neighbouring cells)
and keeps two pieces of memory between messages: its current state and the
cell where it stopped mowing ("the last cut").

The model has five modules, one per part of the controller:

- `Commands` (`commands.dfy`): the command constants `MOVE_STAY` … `MOVE_LEFT`
  (0..8) and the grid cells they move between.
- `Seek` (`seek.dfy`): `seekForGrass`, the gradient climb. It is a method with
  the controller's eight sentinel checks and eight sequential ifs. It is proved
  equal to `BestDirection`, a function built on `Scan`, the running maximum.
  Both are proved to meet `IsBestDirection`, which states the meaning
  directly: stay when no reading is above 0; otherwise the tallest reading,
  with ties going to the earliest direction in the order top-left,
  top-centre, top-right, right, bottom-right, bottom-centre, bottom-left,
  left.
- `Navigation` (`navigation.dfy`): `returnToLastCut` and `returnToCharge`,
  the two fixed direction tables. Beside them are "walks" that replay a table
  tick by tick on an unobstructed grid. These show where each table leads:
  - The drive back reaches the cut from any cell above and to the left of it
    (such as the station), in max(Δi, Δj) ticks.
  - The drive home reaches (0, 0) exactly when the walk meets row 0 at a
    column ≥ 0 (`TopRowColumn`). Otherwise it never does. That is every cell
    with i < j in rows 0 to 17, and every cell with i + j < 34 from row 18
    on; column 0 in rows 1 to 17 is one example.
- `Fsm` (`fsm.dfy`): the `State` enumeration and `updateState`. The
  transition function is proved to either hold a state or advance it one
  phase around the cycle seek → store → drive home → charge → drive back →
  seek. It is also proved that only the error state leads to the error state.
- `Agent` (`agent.dfy`): the per-message step of the `onSensors` handler.
  - `Tick` is the pure specification of one step.
  - `LawnMower` is a class holding the captured variables `currentState`,
    `lastcut_i` and `lastcut_j`. Its `Step` method updates them in place in
    this order: the command from the current state, then the cut
    memory, then the new state from the same message and the updated memory.
  - `Run` replays a sequence of messages. The lemmas prove that from the
    initial memory the error state is never entered and every command sent
    is in 0..8. When positions are on the grid, the drive back never targets
    the (-1, -1) "no cut" marker.

Geometry used by the walks: `i` is the column and `j` the row. "Top" means
row `j - 1` and "left" means column `i - 1`, so the charging station (0, 0)
is the top-left corner. This reading fits `returnToCharge`, which moves left
along row 0 to reach the station. The simulator's own movement rules
(walls, blocked moves) are not part of this model.

Behaviour of the controller worth noting:
- In `STORE_LASTCUT` the command is already `returnToCharge(i, j)`.
- A low battery while seeking leads to `STORE_LASTCUT`; `RETURN_TO_CHARGE`
  starts on the message after that.
- Charging always ends in `RETURN_TO_LASTCUT`, whether or not a cut was
  recorded.
- The error state sends -1, the command's initial value.
- A reading counts as unsensed when `x - -1 < 0.01`, i.e. `x < -0.99`.
- Homing reaches the station only from the cells characterised above.

## Model

| member | source | states |
|---|---|---|
| Seek.SeekForGrass | src/tme290-lawnmower.cpp:73-125 | Returns exactly `BestDirection`. Its result is stay iff no reading is above 0. Otherwise the chosen reading is above 0, at least every other reading, and strictly above every reading earlier in the fixed order |
| Seek.Scan | src/tme290-lawnmower.cpp:88-124 | The running maximum after the first n ifs: its direction is stay or one of the first n, its height is 0 for stay and otherwise the (positive) reading in its direction |
| Seek.ScanIsRunningMaximum | src/tme290-lawnmower.cpp:88-124 | After the first n ifs, the running maximum is at least every one of the first n readings and strictly above every reading before its direction, so it is the earliest tallest, or (0, stay) when none is above 0 |
| Seek.BestDirection | src/tme290-lawnmower.cpp:73-125 | The policy as a function: always a valid command 0..8, and a move only in a direction whose reading is above 0 |
| Seek.UnsensedScanStays | src/tme290-lawnmower.cpp:83-86 | When every reading is the sentinel, the running maximum alone already gives stay, so the early return agrees with the scan |
| Seek.BestDirectionCorrect | src/tme290-lawnmower.cpp:73-125 | The policy's result meets the tallest-earliest specification, including the all-unsensed early return |
| Seek.BestDirectionUnique | src/tme290-lawnmower.cpp:91-124 | At most one command meets that specification, so it determines the policy |
| Seek.UnsensedStays | src/tme290-lawnmower.cpp:74-86 | If all eight readings are unsensed (below -0.99), the command is stay |
| Seek.StrictMaximumWins | src/tme290-lawnmower.cpp:91-124 | A reading above 0 and above all seven others selects its own direction, whatever the others are |
| Seek.TieGoesToEarlier | src/tme290-lawnmower.cpp:91-124 | Of two equal readings, the later one in the fixed order is never chosen |
| Navigation.ReturnToLastCut | src/tme290-lawnmower.cpp:127-154 | Never stay: always one of the eight moves |
| Navigation.ReturnToLastCutTable | src/tme290-lawnmower.cpp:127-154 | Δi = 0 ≠ Δj gives bottom-centre. Δj = 0 ≠ Δi gives right. Δi, Δj > 0 gives bottom-right. Δi > 0 > Δj gives top-right. Δi < 0 < Δj gives bottom-left. Both < 0, or both 0, give top-left |
| Navigation.LastCutWalkArrives | src/tme290-lawnmower.cpp:127-152 | From any cell above and to the left of the cut, repeated drive-back moves reach the cut in max(Δi, Δj) ticks |
| Navigation.SameRowRightOfCutMovesAway | src/tme290-lawnmower.cpp:137-140 | On the cut's row but right of it, the drive-back move is still right, away from the cut |
| Navigation.ReturnToCharge | src/tme290-lawnmower.cpp:156-165 | Never stay: always left, top-left or top-right |
| Navigation.ReturnToChargeTable | src/tme290-lawnmower.cpp:156-165 | Depends on the row only. Row 0 gives left, rows below 18 (other than 0) give top-left, rows 18 and above give top-right |
| Navigation.ChargeStepKeepsTopRowColumn | src/tme290-lawnmower.cpp:160-164 | Off row 0, each homing move goes up one row and keeps the column where row 0 will be reached |
| Navigation.ChargeWalkReachesTopRow | src/tme290-lawnmower.cpp:156-165 | From row j ≥ 0, homing reaches row 0 in exactly j ticks, at column `TopRowColumn` |
| Navigation.ChargeWalkAlongTopRow | src/tme290-lawnmower.cpp:157-159 | Along row 0, homing reaches the station from column k ≥ 0 in k ticks |
| Navigation.ChargeWalkReachesStation | src/tme290-lawnmower.cpp:156-165 | When the walk meets row 0 at column k = `TopRowColumn` ≥ 0, homing reaches (0, 0) in j + k ticks |
| Navigation.ChargeWalkMissesStation | src/tme290-lawnmower.cpp:156-165 | When that column is negative, homing never reaches (0, 0) |
| Fsm.UpdateState | src/tme290-lawnmower.cpp:35-71 | The next state is the current one or its successor in the mowing cycle. The result is the error state iff the input is |
| Fsm.StoreLastCutMovesOn | src/tme290-lawnmower.cpp:37-38 | `STORE_LASTCUT` always goes to `RETURN_TO_CHARGE` |
| Fsm.ReturnToChargeStopsAtStation | src/tme290-lawnmower.cpp:39-45 | `RETURN_TO_CHARGE` goes to `STAY_AND_CHARGE` iff (i, j) = (0, 0), and stays otherwise |
| Fsm.SeekStopsOnLowBattery | src/tme290-lawnmower.cpp:46-52 | `SEEK_FOR_GRASS` goes to `STORE_LASTCUT` iff battery < 0.4, and stays otherwise |
| Fsm.ChargingEndsAtFullBattery | src/tme290-lawnmower.cpp:53-59 | `STAY_AND_CHARGE` stays iff battery < 0.98, and otherwise goes to `RETURN_TO_LASTCUT`, whatever the position |
| Fsm.ReturnToLastCutStopsAtCut | src/tme290-lawnmower.cpp:60-67 | `RETURN_TO_LASTCUT` goes to `SEEK_FOR_GRASS` iff the position is the remembered cut, and stays otherwise |
| Fsm.ErrorIsAbsorbing | src/tme290-lawnmower.cpp:68-69 | The error state always maps to the error state |
| Agent.Decide | src/tme290-lawnmower.cpp:228-250 | The per-state behaviour: a valid command 0..8 in every state but the error state, which keeps -1. Storing records (i, j) as the cut, seeking resets it to (-1, -1), every other state keeps it |
| Agent.Tick | src/tme290-lawnmower.cpp:193-253 | The command is -1 iff the state is the error state, and a valid command 0..8 otherwise. The state holds or advances one phase |
| Agent.SeekTick | src/tme290-lawnmower.cpp:229-253 | While seeking: the command is the gradient climb, the cut is reset to (-1, -1), and the next state is storing iff battery < 0.4 |
| Agent.StoreTick | src/tme290-lawnmower.cpp:234-253 | While storing: the cut becomes the current cell, the command is the homing move, and the next state is `RETURN_TO_CHARGE` |
| Agent.ReturnToChargeTick | src/tme290-lawnmower.cpp:239-253 | While homing: the command is the homing move, the cut is kept, and charging starts iff at (0, 0) |
| Agent.StayAndChargeTick | src/tme290-lawnmower.cpp:242-253 | While charging: the command is stay, the cut is kept, and the drive back starts iff battery ≥ 0.98 |
| Agent.ReturnToLastCutTick | src/tme290-lawnmower.cpp:245-253 | While driving back: the command is the drive-back move, the cut is kept, and seeking resumes iff on the cut. The arrival message still sends top-left |
| Agent.ErrorTick | src/tme290-lawnmower.cpp:248-253 | In the error state the command stays at -1 and the memory is unchanged |
| Agent.TickStateIgnoresCutUpdate | src/tme290-lawnmower.cpp:228-253 | Computing the new state from the cut memory before or after its update gives the same state |
| Agent.StoreAtFiveSeven | src/tme290-lawnmower.cpp:234-238 | Storing at (5, 7) leaves the cut (5, 7) and the state `RETURN_TO_CHARGE` |
| Agent.LowBatteryTakesTwoTicks | src/tme290-lawnmower.cpp:228-253 | Battery 0.39 while seeking: this message still climbs the grass and goes to storing. The next message records its cell and goes to `RETURN_TO_CHARGE` |
| Agent.InitialIsReachable | src/tme290-lawnmower.cpp:170-172 | The initial memory (seeking, cut (-1, -1)) satisfies the reachability invariant |
| Agent.TickKeepsReachable | src/tme290-lawnmower.cpp:228-253 | A message on the grid preserves the invariant: never the error state, no cut while storing, and a cut on the grid while homing, charging or driving back |
| Agent.DriveBackFromStationReachesCut | src/tme290-lawnmower.cpp:127-152 | In a reachable memory that is charging or driving back, the cut is on the grid, and the drive-back moves lead from the station (0, 0) to it in max(cut i, cut j) ticks |
| Agent.Run | src/tme290-lawnmower.cpp:188-257 | Exactly one command per message handled |
| Agent.RunNeverErrs | src/tme290-lawnmower.cpp:188-257 | From any non-error memory, every command sent is in 0..8 and the error state is never entered |
| Agent.RunKeepsReachable | src/tme290-lawnmower.cpp:188-257 | Any sequence of on-grid messages keeps the reachability invariant |
| Agent.LawnMower.constructor | src/tme290-lawnmower.cpp:170-172 | Starts seeking, with no cut (-1, -1) |
| Agent.LawnMower.Step | src/tme290-lawnmower.cpp:193-253 | Updates the fields in place to exactly `Tick`'s new memory and returns `Tick`'s command. Preserves the reachability invariant for on-grid messages |

## Left out

- The publish/subscribe session: message extraction, trigger registration, sending the command, and the initial stay command sent at startup. These are transport I/O; `LawnMower.Step` returns the command instead of sending it.
- Command-line parsing, the exit code and the idle loop that sleeps until the session ends. These are process plumbing.
- All console output and the status-message handler. They are diagnostics and never affect a decision.
- The centre grass reading, rain level and rain-cloud direction. They are read from the message but only printed, so `Sensors` omits them.
- Floating point. Grass readings and the battery level are `real`. The sentinel test `x - -1 < 0.01` is exact over the reals. The thresholds 0.4 and 0.98 are compared exactly, with no `float` rounding of the battery.
- 32-bit integers. Coordinates and their differences are unbounded `int`; grid coordinates are assumed small enough that `lastcut_i - i` cannot overflow.
- The simulator's movement rules. The walk lemmas assume every move is carried out on an unbounded grid; walls and blocked moves are not modelled.
- State values outside the enumeration. The C++ `default` branch also catches them; the model has only the six named states, and the error state stands for the `default` branch.
