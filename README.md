# deCONZ switch platform, modelled in Dafny

This project models the switch platform of Home Assistant's deCONZ integration
(`homeassistant/components/deconz/switch.py`). The platform turns some of the
gateway's light resources into switch entities. A light whose type is in the
power-plug table becomes a `DeconzPowerPlug`. Otherwise, a light whose type is in
the siren table becomes a `DeconzSiren`. Either way, its unique id must not
already be registered for the switch domain. The new entities go to the host's
add-entities callback in one batch. The two entity variants translate the host's
`is_on`, `turn_on` and `turn_off` onto different fields and commands of the
light.

- `entities.dfy`, module `SwitchEntities`: the light record, the two entity
  variants, the `Command` datatype (`SetState(on)`, `SirenTurnOn`,
  `SirenTurnOff`), and `IsOn`, `TurnOn` and `TurnOff` as functions. Each
  variant's commands are tied to `IsOn` through `Acknowledge`. `Acknowledge` is
  the effect a light shows once the gateway has acknowledged a command:
  `set_state` sets `state`, and the siren verbs set the sounding flag.
- `platform.dfy`, module `SwitchPlatform`: a `Gateway` class with the fields the
  platform touches. `entities` is the per-domain map of registered unique ids,
  and `lights` is the API's light collection. The module also has:
  - `Classify`, one pass of the selection loop.
  - `Selected`, the batch a whole pass builds while the registered set stays
    fixed, as a specification function.
  - `Pass`, the batch and the registered set a whole pass leaves behind.
  - `AddSwitch`, the loop itself. It is a method proved against `Pass`, and
    it returns the callback calls it makes.
  - `SetupEntry`, which resets the domain's registered set and runs the first pass.
  - Lemmas stating what each light contributes to the batch.

The power-plug and siren type tables are defined in the integration's `const.py`,
which is not part of this model. They are a parameter (`DeviceTypes`). The
tables may overlap. A type in both becomes a power plug, because the siren test
sits in an `elif`.

The loop at `switch.py:24-35` reads the registered set of the switch domain and
never inserts into it itself. The only step of the loop that could change that
set is building each entity, at `switch.py:30` and `:35`. Both constructors receive the gateway
and run the entity base class, which is not part of this model. Whether that
base class adds the new entity's unique id to the registered set is therefore
a parameter, `markOnCreate`. `Pass` is the selection loop with the set it
leaves behind, and `RegisterOnCreate` is the effect of building one entity.
`AddSwitch` and `SetupEntry` are proved against `Pass` for both values of the
parameter. Without marking, a pass is the fixed-set selection `Selected`
(`UnmarkedPassIsSelected`), and two lights with the same unique id in one pass
both become entities (`DuplicatesBothAdded`). With marking, a later light with
the id of an earlier entity of the same pass is skipped, so no id appears
twice in a batch (`MarkedPassAddsEachIdOnce`), and a second pass over the same
lights adds nothing (`MarkedSecondPassAddsNothing`).

## Model

| member | source | states |
|---|---|---|
| `SwitchEntities.IsOn` | homeassistant/components/deconz/switch.py:54-76 | a power plug reports the light's `state`; a siren reports the light's `is_on` |
| `SwitchEntities.TurnOn` | homeassistant/components/deconz/switch.py:59-80 | a plug issues `set_state(on=True)` and a siren the `turn_on()` verb; only a plug ever issues `set_state`; once the gateway acknowledges the command, `is_on` reads true; the keyword arguments play no part |
| `SwitchEntities.TurnOff` | homeassistant/components/deconz/switch.py:63-84 | a plug issues `set_state(on=False)` and a siren the `turn_off()` verb; only a plug ever issues `set_state`; once acknowledged, `is_on` reads false |
| `SwitchEntities.StatusFieldsAreIndependent` | homeassistant/components/deconz/switch.py:55-84 | a plug's status ignores the siren flag and a siren's ignores `state`; neither variant's commands touch the other variant's field |
| `SwitchEntities.OnAndOffDiffer` | homeassistant/components/deconz/switch.py:59-84 | turn-on and turn-off never issue the same command, and neither depends on the keyword arguments |
| `SwitchPlatform.Classify` | homeassistant/components/deconz/switch.py:26-35 | a light becomes a power plug iff its type is a plug type and its id is unregistered; it becomes a siren iff its type is a siren type but not a plug type and its id is unregistered; it is skipped iff its id is registered or its type is in neither table |
| `SwitchPlatform.Selected` | homeassistant/components/deconz/switch.py:22-35 | the batch is never longer than the input, and every entity in it wraps a light of the input and is exactly what `Classify` makes of that light |
| `SwitchPlatform.Pass` | homeassistant/components/deconz/switch.py:22-35 | whether or not building an entity registers its id, the batch is never longer than the input, and every entity in it wraps an input light and is exactly what `Classify` makes of that light against the set registered before the pass (right variant, plug wins over siren, lights of neither type never appear); the registered set only grows, and stays the same when building an entity registers nothing |
| `SwitchPlatform.PassAppend` | homeassistant/components/deconz/switch.py:24-35 | a pass over two consecutive runs of lights is the pass over the first run followed by the pass over the second against the set the first left behind: the batch keeps input order in both modes |
| `SwitchPlatform.RegisterOnCreate` | homeassistant/components/deconz/switch.py:30-35 | building an entity adds its unique id to the switch domain's set when the base class registers, and otherwise changes nothing |
| `SwitchPlatform.AddSwitch` | homeassistant/components/deconz/switch.py:20-38 | the loop builds exactly the batch of `Pass` against the switch domain's registered ids; the callback is called once, with the whole batch, iff the batch is non-empty; the only change to the gateway is the switch domain's set, which becomes what `Pass` leaves behind |
| `SwitchPlatform.UnmarkedPassIsSelected` | homeassistant/components/deconz/switch.py:24-35 | when building an entity registers nothing, a pass yields the fixed-set batch `Selected` and leaves the registered set unchanged |
| `SwitchPlatform.MarkedPassAddsEachIdOnce` | homeassistant/components/deconz/switch.py:24-35 | when building an entity registers its id, the pass registers exactly its batch's ids, and no unique id appears twice in the batch |
| `SwitchPlatform.PassOfSkippedLights` | homeassistant/components/deconz/switch.py:24-38 | when no light classifies to an entity, the batch is empty, so the callback is not called, and the registered set is unchanged |
| `SwitchPlatform.MarkedPassCoversLights` | homeassistant/components/deconz/switch.py:24-35 | after a pass that registers what it builds, every light is registered or of a type in neither table |
| `SwitchPlatform.MarkedSecondPassAddsNothing` | homeassistant/components/deconz/switch.py:20-38 | when building an entity registers its id, a second pass over the same lights adds nothing and registers nothing |
| `SwitchPlatform.SetupEntry` | homeassistant/components/deconz/switch.py:11-46 | setup resets the switch domain's registered set to empty, leaves other domains alone, and delivers the batch `Pass` selects from all the gateway's lights against the empty set |
| `SwitchPlatform.SelectedAppend` | homeassistant/components/deconz/switch.py:24-35 | the batch built from two consecutive runs of lights is the two batches concatenated: the pass keeps input order |
| `SwitchPlatform.Contribution` | homeassistant/components/deconz/switch.py:24-35 | light `i` contributes exactly its classification, after the entities of the lights before it and before those of the lights after it |
| `SwitchPlatform.PowerPlugIsAdded` | homeassistant/components/deconz/switch.py:26-30 | an unregistered light of a plug type yields exactly one `DeconzPowerPlug` wrapping it, in its place |
| `SwitchPlatform.SirenIsAdded` | homeassistant/components/deconz/switch.py:32-35 | an unregistered light of a siren type that is not a plug type yields exactly one `DeconzSiren` wrapping it, in its place |
| `SwitchPlatform.SkippedLightAddsNothing` | homeassistant/components/deconz/switch.py:24-35 | a registered light, or one of a type in neither table, contributes nothing |
| `SwitchPlatform.PlugWinsOverSiren` | homeassistant/components/deconz/switch.py:26-35 | no entity in the batch is a siren made from a light of a plug type |
| `SwitchPlatform.DuplicatesBothAdded` | homeassistant/components/deconz/switch.py:24-35 | with the registered set fixed during the pass, two eligible lights with the same unique id both yield an entity, each in its place |
| `SwitchPlatform.NothingSelectedIff` | homeassistant/components/deconz/switch.py:24-38 | the batch is empty, so the callback is not called, iff every light is registered or of a type in neither table |
| `SwitchPlatform.SecondPassAddsNothing` | homeassistant/components/deconz/switch.py:24-38 | with the set fixed during a pass, if the ids of its batch have been registered by the next event, a second pass over the same lights adds nothing |
| `SwitchPlatform.NewLightAloneIsAdded` | homeassistant/components/deconz/switch.py:20-38 | with the set fixed during a pass, after the first batch is registered, a pass over the same lights plus one new light adds only what the new light classifies to |

## Left out

- SwitchPlatform.DuplicatesBothAdded: holds only when building an entity
  registers nothing (`markOnCreate` false). With marking, the second light
  is skipped, as `MarkedPassAddsEachIdOnce` states.
- The subscription to the gateway's new-light signal and its release on unload
  (`switch.py:40-44`) are publish-subscribe plumbing. Each signal delivery is
  one more call of `AddSwitch`. The call at `switch.py:46` is the one
  `SetupEntry` makes.
- The `await` on each device command, and the command's network round trip and
  failures, belong to the deCONZ client, which is not part of this model. The
  model records only which command is issued. `Acknowledge` is the effect of a
  command that succeeded.
- The entity base class `DeconzDevice`, `SwitchEntity` and the gateway lookup
  are not part of this model. The one effect of the base class that the
  selection depends on is whether it adds the new entity's unique id to
  `gateway.entities[TYPE]`, with `TYPE = DOMAIN`. That is the parameter
  `markOnCreate`, not a fact the model settles. An entity here
  wraps its light only. Its reference to the gateway is not modelled, because
  it is the same gateway for every entity of a setup.
- The contents of `POWER_PLUGS`, `SIRENS` and `NEW_LIGHT` are in `const.py`,
  which is not part of this model. The two type tables are a parameter.
- The host's add-entities callback is modelled as the list of calls it would
  receive, not as a call into host code.
- There is no locking around the registered set. The code has none, and it runs
  on one event loop.
