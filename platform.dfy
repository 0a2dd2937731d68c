/** Setup of the deCONZ switch platform: every light of the gateway whose type
    is a power plug or a siren, and whose unique id is not yet registered for
    the switch domain, becomes an entity; the new entities are handed to the
    host in one batch. */
module SwitchPlatform {
  import opened SwitchEntities

  /** The platform domain under which switch entities are registered. */
  const DOMAIN: string := "switch"

  datatype Option<T> = None | Some(value: T)

  /** The two type tables of the integration: `POWER_PLUGS` and `SIRENS`. */
  datatype DeviceTypes = DeviceTypes(powerPlugs: set<string>, sirens: set<string>)

  /** The deCONZ gateway, as far as the switch platform touches it. */
  class Gateway {
    /** `gateway.entities`: unique ids of registered entities, per platform domain. */
    var entities: map<string, set<string>>
    /** `gateway.api.lights.values()`: the light resources the gateway knows. */
    var lights: seq<Light>
  }

  /** One pass of the selection loop: the entity made from `light`, if any.
      A type in both tables becomes a power plug. */
  function Classify(light: Light, types: DeviceTypes, registered: set<string>): (r: Option<SwitchEntity>)
    ensures r == Some(DeconzPowerPlug(light)) <==>
              light.deviceType in types.powerPlugs && light.uniqueId !in registered
    ensures r == Some(DeconzSiren(light)) <==>
              light.deviceType !in types.powerPlugs && light.deviceType in types.sirens && light.uniqueId !in registered
    ensures r == None <==>
              light.uniqueId in registered || (light.deviceType !in types.powerPlugs && light.deviceType !in types.sirens)
  {
    if light.deviceType in types.powerPlugs && light.uniqueId !in registered then
      Some(DeconzPowerPlug(light))
    else if light.deviceType in types.sirens && light.uniqueId !in registered then
      Some(DeconzSiren(light))
    else
      None
  }

  /** What one pass appends to the batch. */
  function Emitted(o: Option<SwitchEntity>): seq<SwitchEntity>
  {
    if o.Some? then [o.value] else []
  }

  /** The batch the selection loop builds from `lights`, in input order, when
      the registered set stays fixed during the pass. */
  function Selected(lights: seq<Light>, types: DeviceTypes, registered: set<string>): (r: seq<SwitchEntity>)
    ensures |r| <= |lights|
    ensures forall k :: 0 <= k < |r| ==>
              r[k].device in lights && Classify(r[k].device, types, registered) == Some(r[k])
    decreases |lights|
  {
    if lights == [] then []
    else
      var init := lights[..|lights| - 1];
      assert forall x :: x in init ==> x in lights;
      Selected(init, types, registered) + Emitted(Classify(lights[|lights| - 1], types, registered))
  }

  /** The unique ids of a batch of entities. */
  function Ids(entities: seq<SwitchEntity>): set<string>
  {
    set e | e in entities :: e.device.uniqueId
  }

  /** The calls made to the host's add-entities callback for a batch:
      exactly one call with the whole batch when it is non-empty, none otherwise. */
  function Delivered(batch: seq<SwitchEntity>): (calls: seq<seq<SwitchEntity>>)
  {
    if batch == [] then [] else [batch]
  }

  /** One whole pass of the selection loop, with the registered set it leaves
      behind. Building an entity runs the entity base class, which is not part
      of this model; `markOnCreate` says whether that adds the new entity's
      unique id to the registered set. Later lights of the same pass then see
      the grown set. */
  function Pass(lights: seq<Light>, types: DeviceTypes, registered: set<string>, markOnCreate: bool)
    : (r: (seq<SwitchEntity>, set<string>))
    ensures |r.0| <= |lights|
    ensures registered <= r.1
    ensures !markOnCreate ==> r.1 == registered
    ensures forall k :: 0 <= k < |r.0| ==>
              r.0[k].device in lights && Classify(r.0[k].device, types, registered) == Some(r.0[k])
    decreases |lights|
  {
    if lights == [] then ([], registered)
    else
      var init, light := lights[..|lights| - 1], lights[|lights| - 1];
      assert forall x :: x in init ==> x in lights;
      var (batch, current) := Pass(init, types, registered, markOnCreate);
      match Classify(light, types, current)
      case None => (batch, current)
      case Some(e) => (batch + [e], if markOnCreate then current + {light.uniqueId} else current)
  }

  /** What building `entity` does to the gateway: when `markOnCreate` holds,
      the entity base class adds the entity's unique id to the switch
      domain's registered set; otherwise the gateway is left as it was. */
  method RegisterOnCreate(gateway: Gateway, entity: SwitchEntity, markOnCreate: bool)
    requires DOMAIN in gateway.entities
    modifies gateway`entities
    ensures gateway.entities ==
              if markOnCreate then old(gateway.entities)[DOMAIN := old(gateway.entities[DOMAIN]) + {entity.device.uniqueId}]
              else old(gateway.entities)
  {
    if markOnCreate {
      gateway.entities := gateway.entities[DOMAIN := gateway.entities[DOMAIN] + {entity.device.uniqueId}];
    }
  }

  /** `async_add_switch`: runs the selection loop over `lights` against the
      ids registered for the switch domain and returns the calls it makes to
      the host's add-entities callback. The loop itself only reads the
      registered set; it changes only through building the entities. */
  method AddSwitch(gateway: Gateway, lights: seq<Light>, types: DeviceTypes, markOnCreate: bool)
    returns (calls: seq<seq<SwitchEntity>>)
    requires DOMAIN in gateway.entities
    modifies gateway`entities
    ensures var (batch, after) := Pass(lights, types, old(gateway.entities[DOMAIN]), markOnCreate);
            calls == Delivered(batch) && gateway.entities == old(gateway.entities)[DOMAIN := after]
  {
    ghost var registered := gateway.entities[DOMAIN];
    var entities: seq<SwitchEntity> := [];
    for i := 0 to |lights|
      invariant DOMAIN in gateway.entities
      invariant var (batch, after) := Pass(lights[..i], types, registered, markOnCreate);
                entities == batch && gateway.entities == old(gateway.entities)[DOMAIN := after]
    {
      var light := lights[i];
      assert lights[..i + 1][..i] == lights[..i];
      if light.deviceType in types.powerPlugs && light.uniqueId !in gateway.entities[DOMAIN] {
        var entity := DeconzPowerPlug(light);
        RegisterOnCreate(gateway, entity, markOnCreate);
        entities := entities + [entity];
      } else if light.deviceType in types.sirens && light.uniqueId !in gateway.entities[DOMAIN] {
        var entity := DeconzSiren(light);
        RegisterOnCreate(gateway, entity, markOnCreate);
        entities := entities + [entity];
      }
    }
    assert lights[..|lights|] == lights;
    calls := [];
    if entities != [] {
      calls := calls + [entities];
    }
  }

  /** `async_setup_entry`: resets the switch domain's registered ids to the
      empty set, then runs the selection once over all the gateway's lights. */
  method SetupEntry(gateway: Gateway, types: DeviceTypes, markOnCreate: bool) returns (calls: seq<seq<SwitchEntity>>)
    modifies gateway`entities
    ensures var (batch, after) := Pass(gateway.lights, types, {}, markOnCreate);
            calls == Delivered(batch) && gateway.entities == old(gateway.entities)[DOMAIN := after]
  {
    gateway.entities := gateway.entities[DOMAIN := {}];
    calls := AddSwitch(gateway, gateway.lights, types, markOnCreate);
  }

  /** A pass over a concatenation runs over the first part, then over the
      second part against the set the first part left behind: the batch keeps
      input order. */
  lemma {:induction false} PassAppend(a: seq<Light>, b: seq<Light>, types: DeviceTypes, registered: set<string>,
                                      markOnCreate: bool)
    ensures var (batchA, afterA) := Pass(a, types, registered, markOnCreate);
            var (batchB, afterB) := Pass(b, types, afterA, markOnCreate);
            Pass(a + b, types, registered, markOnCreate) == (batchA + batchB, afterB)
    decreases |b|
  {
    if b == [] {
      assert a + b == a;
      var batchA := Pass(a, types, registered, markOnCreate).0;
      assert batchA + [] == batchA;
    } else {
      var b' := b[..|b| - 1];
      assert (a + b)[..|a + b| - 1] == a + b';
      assert (a + b)[|a + b| - 1] == b[|b| - 1];
      PassAppend(a, b', types, registered, markOnCreate);
      var afterA := Pass(a, types, registered, markOnCreate).1;
      var (batchB', afterB') := Pass(b', types, afterA, markOnCreate);
      var last := b[|b| - 1];
      match Classify(last, types, afterB')
      case None =>
        assert Pass(b, types, afterA, markOnCreate) == (batchB', afterB');
      case Some(e) =>
        var grown := if markOnCreate then afterB' + {last.uniqueId} else afterB';
        assert Pass(b, types, afterA, markOnCreate) == (batchB' + [e], grown);
        assert Pass(a, types, registered, markOnCreate).0 + batchB' + [e]
            == Pass(a, types, registered, markOnCreate).0 + (batchB' + [e]);
    }
  }

  /** When building an entity registers nothing, a pass is the fixed-set
      selection `Selected` and leaves the registered set as it was. */
  lemma {:induction false} UnmarkedPassIsSelected(lights: seq<Light>, types: DeviceTypes, registered: set<string>)
    ensures Pass(lights, types, registered, false) == (Selected(lights, types, registered), registered)
    decreases |lights|
  {
    if lights != [] {
      var init, light := lights[..|lights| - 1], lights[|lights| - 1];
      UnmarkedPassIsSelected(init, types, registered);
      var o := Classify(light, types, registered);
      assert Selected(lights, types, registered) == Selected(init, types, registered) + Emitted(o);
      assert Pass(lights, types, registered, false).0 == Selected(init, types, registered) + Emitted(o);
    }
  }

  /** When building an entity registers its id, a pass registers exactly the
      ids of its batch, and no unique id appears twice in the batch: a later
      light with the id of an earlier entity of the same pass is skipped. */
  lemma {:induction false} MarkedPassAddsEachIdOnce(lights: seq<Light>, types: DeviceTypes, registered: set<string>)
    ensures var (batch, after) := Pass(lights, types, registered, true);
            && after == registered + Ids(batch)
            && forall k1, k2 :: 0 <= k1 < k2 < |batch| ==> batch[k1].device.uniqueId != batch[k2].device.uniqueId
    decreases |lights|
  {
    if lights != [] {
      var init, light := lights[..|lights| - 1], lights[|lights| - 1];
      MarkedPassAddsEachIdOnce(init, types, registered);
      var (batch, current) := Pass(init, types, registered, true);
      var o := Classify(light, types, current);
      if o.Some? {
        var batch' := batch + [o.value];
        assert Ids(batch') == Ids(batch) + {light.uniqueId} by {
          assert o.value in batch';
          forall x | x in Ids(batch') ensures x in Ids(batch) + {light.uniqueId} {
            var e :| e in batch' && e.device.uniqueId == x;
            if e != o.value { assert e in batch; }
          }
        }
        forall k1, k2 | 0 <= k1 < k2 < |batch'|
          ensures batch'[k1].device.uniqueId != batch'[k2].device.uniqueId
        {
          if k2 == |batch| {
            assert batch[k1] in batch;
          }
        }
      }
    }
  }

  /** A pass in which no light classifies to an entity adds nothing and
      registers nothing. */
  lemma {:induction false} PassOfSkippedLights(lights: seq<Light>, types: DeviceTypes, registered: set<string>, markOnCreate: bool)
    requires forall i :: 0 <= i < |lights| ==> Classify(lights[i], types, registered) == None
    ensures Pass(lights, types, registered, markOnCreate) == ([], registered)
    decreases |lights|
  {
    if lights != [] {
      var init := lights[..|lights| - 1];
      assert forall i :: 0 <= i < |init| ==> init[i] == lights[i];
      PassOfSkippedLights(init, types, registered, markOnCreate);
    }
  }

  /** After a pass that registers what it builds, every light is registered
      or of a type in neither table. */
  lemma {:induction false} MarkedPassCoversLights(lights: seq<Light>, types: DeviceTypes, registered: set<string>)
    ensures forall i :: 0 <= i < |lights| ==> Classify(lights[i], types, Pass(lights, types, registered, true).1) == None
    decreases |lights|
  {
    if lights != [] {
      var init := lights[..|lights| - 1];
      MarkedPassCoversLights(init, types, registered);
      assert forall i :: 0 <= i < |init| ==> init[i] == lights[i];
    }
  }

  /** When building an entity registers its id, a second discovery event over
      the same lights adds nothing. */
  lemma {:induction false} MarkedSecondPassAddsNothing(lights: seq<Light>, types: DeviceTypes, registered: set<string>,
                                                       markOnCreate: bool)
    ensures var after := Pass(lights, types, registered, true).1;
            Pass(lights, types, after, markOnCreate) == ([], after)
  {
    MarkedPassCoversLights(lights, types, registered);
    PassOfSkippedLights(lights, types, Pass(lights, types, registered, true).1, markOnCreate);
  }

  /** The batch built from a concatenation is the concatenation of the batches. */
  lemma {:induction false} SelectedAppend(a: seq<Light>, b: seq<Light>, types: DeviceTypes, registered: set<string>)
    ensures Selected(a + b, types, registered) == Selected(a, types, registered) + Selected(b, types, registered)
    decreases |b|
  {
    if b == [] {
      assert a + b == a;
    } else {
      var b' := b[..|b| - 1];
      assert (a + b)[..|a + b| - 1] == a + b';
      assert (a + b)[|a + b| - 1] == b[|b| - 1];
      SelectedAppend(a, b', types, registered);
    }
  }

  /** Light `i` contributes exactly what `Classify` makes of it, between the
      entities of the lights before it and those of the lights after it. */
  lemma {:induction false} Contribution(lights: seq<Light>, i: nat, types: DeviceTypes, registered: set<string>)
    requires i < |lights|
    ensures Selected(lights, types, registered) ==
              Selected(lights[..i], types, registered)
              + Emitted(Classify(lights[i], types, registered))
              + Selected(lights[i + 1..], types, registered)
  {
    assert lights == lights[..i] + [lights[i]] + lights[i + 1..];
    SelectedAppend(lights[..i] + [lights[i]], lights[i + 1..], types, registered);
    SelectedAppend(lights[..i], [lights[i]], types, registered);
    SelectedSingle(lights[i], types, registered);
  }

  /** An unregistered light of a power-plug type yields exactly one power plug, in its place. */
  lemma {:induction false} PowerPlugIsAdded(lights: seq<Light>, i: nat, types: DeviceTypes, registered: set<string>)
    requires i < |lights|
    requires lights[i].deviceType in types.powerPlugs && lights[i].uniqueId !in registered
    ensures Selected(lights, types, registered) ==
              Selected(lights[..i], types, registered)
              + [DeconzPowerPlug(lights[i])]
              + Selected(lights[i + 1..], types, registered)
  {
    Contribution(lights, i, types, registered);
  }

  /** An unregistered light of a siren type that is not also a power-plug type
      yields exactly one siren, in its place. */
  lemma {:induction false} SirenIsAdded(lights: seq<Light>, i: nat, types: DeviceTypes, registered: set<string>)
    requires i < |lights|
    requires lights[i].deviceType !in types.powerPlugs && lights[i].deviceType in types.sirens
    requires lights[i].uniqueId !in registered
    ensures Selected(lights, types, registered) ==
              Selected(lights[..i], types, registered)
              + [DeconzSiren(lights[i])]
              + Selected(lights[i + 1..], types, registered)
  {
    Contribution(lights, i, types, registered);
  }

  /** A registered light, or one whose type is in neither table, adds nothing. */
  lemma {:induction false} SkippedLightAddsNothing(lights: seq<Light>, i: nat, types: DeviceTypes, registered: set<string>)
    requires i < |lights|
    requires lights[i].uniqueId in registered
             || (lights[i].deviceType !in types.powerPlugs && lights[i].deviceType !in types.sirens)
    ensures Selected(lights, types, registered) ==
              Selected(lights[..i], types, registered) + Selected(lights[i + 1..], types, registered)
  {
    Contribution(lights, i, types, registered);
  }

  /** No siren is ever made from a light whose type is also a power-plug type. */
  lemma {:induction false} PlugWinsOverSiren(lights: seq<Light>, types: DeviceTypes, registered: set<string>, k: nat)
    requires k < |Selected(lights, types, registered)|
    ensures var e := Selected(lights, types, registered)[k];
            e.device.deviceType in types.powerPlugs ==> e.DeconzPowerPlug?
  {
  }

  /** A one-light batch is what `Classify` makes of that light. */
  lemma SelectedSingle(light: Light, types: DeviceTypes, registered: set<string>)
    ensures Selected([light], types, registered) == Emitted(Classify(light, types, registered))
  {
    assert [light][..0] == [];
  }

  /** When building an entity registers nothing (`Pass` without marking is
      `Selected`), two lights with the same unique id in one pass are both
      added, each in its place. */
  lemma {:induction false} DuplicatesBothAdded(a: seq<Light>, x: Light, b: seq<Light>, y: Light, c: seq<Light>,
                                               types: DeviceTypes, registered: set<string>)
    requires x.uniqueId == y.uniqueId
    requires Classify(x, types, registered).Some? && Classify(y, types, registered).Some?
    ensures Selected(a + [x] + b + [y] + c, types, registered) ==
              Selected(a, types, registered)
              + [Classify(x, types, registered).value]
              + Selected(b, types, registered)
              + [Classify(y, types, registered).value]
              + Selected(c, types, registered)
  {
    SelectedAppend(a + [x] + b + [y], c, types, registered);
    SelectedAppend(a + [x] + b, [y], types, registered);
    SelectedAppend(a + [x], b, types, registered);
    SelectedAppend(a, [x], types, registered);
    SelectedSingle(x, types, registered);
    SelectedSingle(y, types, registered);
  }

  /** The batch is empty exactly when every light is registered or of a type
      in neither table; then the host callback is not called. */
  lemma {:induction false} NothingSelectedIff(lights: seq<Light>, types: DeviceTypes, registered: set<string>)
    ensures Selected(lights, types, registered) == [] <==>
              forall i :: 0 <= i < |lights| ==> Classify(lights[i], types, registered) == None
    decreases |lights|
  {
    if lights != [] {
      var init := lights[..|lights| - 1];
      NothingSelectedIff(init, types, registered);
      assert forall i :: 0 <= i < |init| ==> init[i] == lights[i];
    }
  }

  /** A light is offered again on a later discovery event. With the set fixed
      during a pass, once the ids of its batch have been registered by the time
      of the next event, running the selection again over the same lights adds
      nothing. */
  lemma {:induction false} SecondPassAddsNothing(lights: seq<Light>, types: DeviceTypes, registered: set<string>)
    ensures Selected(lights, types, registered + Ids(Selected(lights, types, registered))) == []
  {
    var batch := Selected(lights, types, registered);
    var registered' := registered + Ids(batch);
    forall i | 0 <= i < |lights|
      ensures Classify(lights[i], types, registered') == None
    {
      var o := Classify(lights[i], types, registered);
      if o.Some? {
        Contribution(lights, i, types, registered);
        var before := Selected(lights[..i], types, registered);
        assert batch[|before|] == o.value;
        assert o.value in batch;
        assert lights[i].uniqueId in Ids(batch);
      }
    }
    NothingSelectedIff(lights, types, registered');
  }

  /** After the first batch is registered, a pass over the same lights plus a
      new light adds only what the new light classifies to. */
  lemma {:induction false} NewLightAloneIsAdded(lights: seq<Light>, light: Light, types: DeviceTypes, registered: set<string>)
    ensures var registered' := registered + Ids(Selected(lights, types, registered));
            Selected(lights + [light], types, registered') == Emitted(Classify(light, types, registered'))
  {
    var registered' := registered + Ids(Selected(lights, types, registered));
    SelectedAppend(lights, [light], types, registered');
    SecondPassAddsNothing(lights, types, registered);
    SelectedSingle(light, types, registered');
  }
}
