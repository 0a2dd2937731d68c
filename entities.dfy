/** The two switch entity variants of the deCONZ integration and the command
    each of them sends to its light when the host asks it to turn on or off. */
module SwitchEntities {

  /** A deCONZ light resource as the switch platform sees it.
      `deviceType` is the resource's `type` tag, `state` its boolean on/off
      field (what a power plug reports) and `isOn` the siren's own
      "currently sounding" property. */
  datatype Light = Light(uniqueId: string, deviceType: string, state: bool, isOn: bool)

  /** A bridge entity wraps the light it was created from. */
  datatype SwitchEntity =
    | DeconzPowerPlug(device: Light)
    | DeconzSiren(device: Light)

  /** The request an entity hands to the deCONZ client:
      `set_state(on=...)` for a power plug, the siren verbs `turn_on()` and
      `turn_off()` for a siren. */
  datatype Command =
    | SetState(on: bool)
    | SirenTurnOn
    | SirenTurnOff

  /** The keyword arguments the host passes to `async_turn_on` and `async_turn_off`. */
  type Kwargs = map<string, string>

  /** The `is_on` property: a power plug reads the light's `state`, a siren
      reads the light's `is_on`. */
  function IsOn(e: SwitchEntity): (r: bool)
    ensures e.DeconzPowerPlug? ==> r == e.device.state
    ensures e.DeconzSiren? ==> r == e.device.isOn
  {
    match e
    case DeconzPowerPlug(light) => light.state
    case DeconzSiren(light) => light.isOn
  }

  /** What the gateway does to a light once it has acknowledged a command.
      A plug's `set_state` changes only `state`; a siren verb changes only
      the sounding flag. */
  function Acknowledge(c: Command, light: Light): Light
  {
    match c
    case SetState(on) => light.(state := on)
    case SirenTurnOn => light.(isOn := true)
    case SirenTurnOff => light.(isOn := false)
  }

  /** `async_turn_on`: the command issued; the keyword arguments are ignored. */
  function TurnOn(e: SwitchEntity, kwargs: Kwargs): (c: Command)
    ensures c.SetState? <==> e.DeconzPowerPlug?
    ensures e.DeconzPowerPlug? ==> c == SetState(true)
    ensures e.DeconzSiren? ==> c == SirenTurnOn
    ensures IsOn(e.(device := Acknowledge(c, e.device)))
  {
    match e
    case DeconzPowerPlug(_) => SetState(on := true)
    case DeconzSiren(_) => SirenTurnOn
  }

  /** `async_turn_off`: the command issued; the keyword arguments are ignored. */
  function TurnOff(e: SwitchEntity, kwargs: Kwargs): (c: Command)
    ensures c.SetState? <==> e.DeconzPowerPlug?
    ensures e.DeconzPowerPlug? ==> c == SetState(false)
    ensures e.DeconzSiren? ==> c == SirenTurnOff
    ensures !IsOn(e.(device := Acknowledge(c, e.device)))
  {
    match e
    case DeconzPowerPlug(_) => SetState(on := false)
    case DeconzSiren(_) => SirenTurnOff
  }

  /** The two variants read different fields: a plug's status does not depend
      on the siren flag, a siren's does not depend on `state`, and the
      commands of either variant leave the other variant's field alone. */
  lemma StatusFieldsAreIndependent(light: Light, b: bool, kwargs: Kwargs)
    ensures IsOn(DeconzPowerPlug(light.(isOn := b))) == IsOn(DeconzPowerPlug(light))
    ensures IsOn(DeconzSiren(light.(state := b))) == IsOn(DeconzSiren(light))
    ensures Acknowledge(TurnOn(DeconzSiren(light), kwargs), light).state == light.state
    ensures Acknowledge(TurnOff(DeconzSiren(light), kwargs), light).state == light.state
    ensures Acknowledge(TurnOn(DeconzPowerPlug(light), kwargs), light).isOn == light.isOn
    ensures Acknowledge(TurnOff(DeconzPowerPlug(light), kwargs), light).isOn == light.isOn
  {
  }

  /** Turning on and off always issue different commands, whatever the
      keyword arguments of either call. */
  lemma OnAndOffDiffer(e: SwitchEntity, k1: Kwargs, k2: Kwargs)
    ensures TurnOn(e, k1) != TurnOff(e, k2)
    ensures TurnOn(e, k1) == TurnOn(e, k2) && TurnOff(e, k1) == TurnOff(e, k2)
  {
  }
}
