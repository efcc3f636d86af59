/** The actuator-driver boundary: devices as rescan sees them, the actuator
    handles the workers hold, and the commands they send. */
module Devices {

  datatype ActuatorKind = Linear | Vibrator

  /** Actuator number `slot` of the given kind on the device with index
      `device`; the controller only ever binds slot 0. */
  datatype Actuator = Actuator(device: int, kind: ActuatorKind, slot: nat)

  /** A device of the client's registry: its index, its display name, whether
      it has been removed, and how many linear and vibrator actuators it has. */
  datatype Device = Device(
    index: int,
    name: string,
    removed: bool,
    linearActuators: nat,
    vibratorActuators: nat)

  /** A command handed to the driver: a linear move to a position over a
      duration in milliseconds, or a vibration speed. */
  datatype Command =
    | MoveTo(actuator: Actuator, position: real, durationMs: int)
    | Vibrate(actuator: Actuator, speed: real)
}
