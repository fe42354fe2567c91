/**
 * The mower's state machine: mow until the battery runs low, remember where,
 * drive home, charge, drive back, and mow again.
 */
module Fsm {

  datatype State = ReturnToCharge | StayAndCharge | ReturnToLastCut | SeekForGrass | StoreLastCut | Error

  /** Below this battery level the mower stops mowing and heads home. */
  const LowBattery: real := 0.4
  /** From this battery level on the mower leaves the station. */
  const FullBattery: real := 0.98

  /** The next phase of the mowing cycle; the error state has none. */
  function Successor(s: State): State {
    match s
    case SeekForGrass => StoreLastCut
    case StoreLastCut => ReturnToCharge
    case ReturnToCharge => StayAndCharge
    case StayAndCharge => ReturnToLastCut
    case ReturnToLastCut => SeekForGrass
    case Error => Error
  }

  /**
   * The state after one sensor message, from the battery level, the position
   * (`i`, `j`) and the remembered cut (`lastcutI`, `lastcutJ`). A state either
   * holds or advances one phase around the cycle, and only the error state
   * leads to the error state.
   */
  function UpdateState(current: State, battery: real, i: int, j: int, lastcutI: int, lastcutJ: int): (next: State)
    ensures next == current || next == Successor(current)
    ensures next == Error <==> current == Error
  {
    match current
    case StoreLastCut => ReturnToCharge
    case ReturnToCharge =>
      if i == 0 && j == 0 then StayAndCharge else ReturnToCharge
    case SeekForGrass =>
      if battery < LowBattery then StoreLastCut else SeekForGrass
    case StayAndCharge =>
      if battery < FullBattery then StayAndCharge else ReturnToLastCut
    case ReturnToLastCut =>
      if i == lastcutI && j == lastcutJ then SeekForGrass else ReturnToLastCut
    case Error => Error
  }

  /** Storing the cut always hands over to the drive home. */
  lemma StoreLastCutMovesOn(battery: real, i: int, j: int, lastcutI: int, lastcutJ: int)
    ensures UpdateState(StoreLastCut, battery, i, j, lastcutI, lastcutJ) == ReturnToCharge
  {
  }

  /** The drive home ends exactly at the station (0, 0), whatever the battery. */
  lemma ReturnToChargeStopsAtStation(battery: real, i: int, j: int, lastcutI: int, lastcutJ: int)
    ensures UpdateState(ReturnToCharge, battery, i, j, lastcutI, lastcutJ) == StayAndCharge <==> i == 0 && j == 0
    ensures UpdateState(ReturnToCharge, battery, i, j, lastcutI, lastcutJ) != StayAndCharge ==>
      UpdateState(ReturnToCharge, battery, i, j, lastcutI, lastcutJ) == ReturnToCharge
  {
  }

  /** Mowing stops exactly when the battery is below 0.4. */
  lemma SeekStopsOnLowBattery(battery: real, i: int, j: int, lastcutI: int, lastcutJ: int)
    ensures UpdateState(SeekForGrass, battery, i, j, lastcutI, lastcutJ) == StoreLastCut <==> battery < LowBattery
    ensures UpdateState(SeekForGrass, battery, i, j, lastcutI, lastcutJ) != StoreLastCut ==>
      UpdateState(SeekForGrass, battery, i, j, lastcutI, lastcutJ) == SeekForGrass
  {
  }

  /**
   * Charging lasts while the battery is below 0.98 and then always heads back to
   * the cut (there is no direct return to seeking), wherever the mower stands.
   */
  lemma ChargingEndsAtFullBattery(battery: real, i: int, j: int, lastcutI: int, lastcutJ: int, i': int, j': int)
    ensures UpdateState(StayAndCharge, battery, i, j, lastcutI, lastcutJ) == StayAndCharge <==> battery < FullBattery
    ensures UpdateState(StayAndCharge, battery, i, j, lastcutI, lastcutJ) != StayAndCharge ==>
      UpdateState(StayAndCharge, battery, i, j, lastcutI, lastcutJ) == ReturnToLastCut
    ensures UpdateState(StayAndCharge, battery, i, j, lastcutI, lastcutJ) == UpdateState(StayAndCharge, battery, i', j', lastcutI, lastcutJ)
  {
  }

  /** The drive back ends exactly on the remembered cut. */
  lemma ReturnToLastCutStopsAtCut(battery: real, i: int, j: int, lastcutI: int, lastcutJ: int)
    ensures UpdateState(ReturnToLastCut, battery, i, j, lastcutI, lastcutJ) == SeekForGrass <==> i == lastcutI && j == lastcutJ
    ensures UpdateState(ReturnToLastCut, battery, i, j, lastcutI, lastcutJ) != SeekForGrass ==>
      UpdateState(ReturnToLastCut, battery, i, j, lastcutI, lastcutJ) == ReturnToLastCut
  {
  }

  /** The error state is absorbing. */
  lemma ErrorIsAbsorbing(battery: real, i: int, j: int, lastcutI: int, lastcutJ: int)
    ensures UpdateState(Error, battery, i, j, lastcutI, lastcutJ) == Error
  {
  }
}
