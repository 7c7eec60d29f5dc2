/**
 * Numeric values of the HomeKit Accessory Protocol characteristics the
 * controllers compare against, as the host framework defines them.
 */
module Hap {
  // Characteristic.Active
  const INACTIVE: int := 0
  const ACTIVE: int := 1

  // Characteristic.TargetHeatingCoolingState
  const OFF: int := 0
  const HEAT: int := 1
  const COOL: int := 2
  const AUTO: int := 3

  // Characteristic.RemoteKey
  const ARROW_UP: int := 4
  const ARROW_DOWN: int := 5
  const ARROW_LEFT: int := 6
  const ARROW_RIGHT: int := 7
  const SELECT: int := 8
  const BACK: int := 9
  const EXIT: int := 10
  const INFORMATION: int := 15
}
