/** Cloning an endpoint's descriptors, on the heap: five blocks are allocated and a failure frees them all. */
module EndpointClone {
  import opened EndpointSetup

  datatype Property = Property(key: nat, kind: nat, size: nat, buffer: nat)

  const FRIENDLY_NAME_KEY: nat := 14
  const STRING_INDIRECT: nat := 0x19
  const SIZE_OF_NULL: nat := 2

  /** A filter descriptor; `rest` stands for its other fields. */
  class Descriptor {
    var pins: array<Pin>
    var rest: int

    constructor (pins: array<Pin>, rest: int)
      ensures this.pins == pins && this.rest == rest
    {
      this.pins, this.rest := pins, rest;
    }
  }

  class Minipair {
    var topo: Descriptor
    var topoProperties: array<Property>
    var waveProperties: array<Property>
    var rest: int

    constructor (topo: Descriptor, topoProperties: array<Property>, waveProperties: array<Property>, rest: int)
      ensures this.topo == topo && this.topoProperties == topoProperties
      ensures this.waveProperties == waveProperties && this.rest == rest
    {
      this.topo, this.topoProperties, this.waveProperties, this.rest := topo, topoProperties, waveProperties, rest;
    }

    /** The blocks a clone consists of. */
    ghost function Blocks(): set<object>
      reads this, topo
    {
      {this, topo, topo.pins, topoProperties, waveProperties}
    }
  }

  /** Whether each of the five allocations succeeds, in the order they are made. */
  datatype Rooms = Rooms(topo: bool, pair: bool, descriptor: bool, pins: bool, wave: bool) {
    predicate All() {
      topo && pair && descriptor && pins && wave
    }
  }

  function Friendly(length: nat, buffer: nat): Property {
    Property(FRIENDLY_NAME_KEY, STRING_INDIRECT, length + SIZE_OF_NULL, buffer)
  }

  class Device {
    ghost var live: set<object>    // pool blocks allocated and not freed

    method FreePool(block: object)
      requires block in live
      modifies this
      ensures live == old(live) - {block}
    {
      live := live - {block};
    }

    method CopyProperties(source: array<Property>, target: array<Property>)
      requires source != target && source.Length <= target.Length
      modifies target
      ensures target[..] == source[..] + old(target[source.Length..])
    {
      var i := 0;
      while i < source.Length
        invariant 0 <= i <= source.Length
        invariant target[..i] == source[..i] && target[i..] == old(target[i..])
      {
        target[i] := source[i];
        i := i + 1;
      }
    }

    /** base ++ [friendly name] ++ custom */
    method FillTopoProperties(base: array<Property>, nameLength: nat, nameBuffer: nat, custom: seq<Property>,
                              target: array<Property>)
      requires base != target && target.Length == base.Length + 1 + |custom|
      modifies target
      ensures target[..] == base[..] + [Friendly(nameLength, nameBuffer)] + custom
      ensures var name := target[base.Length];
        && name.key == FRIENDLY_NAME_KEY && name.kind == STRING_INDIRECT
        && name.size == nameLength + SIZE_OF_NULL && name.buffer == nameBuffer
    {
      CopyProperties(base, target);
      var last := base.Length;
      target[last] := Friendly(nameLength, nameBuffer);
      last := last + 1;
      var i := 0;
      while i < |custom|
        invariant 0 <= i <= |custom| && last == base.Length + 1 + i
        invariant target[..last] == base[..] + [Friendly(nameLength, nameBuffer)] + custom[..i]
      {
        target[last] := custom[i];
        last := last + 1;
        i := i + 1;
      }
      assert target[base.Length] == target[..][base.Length] == Friendly(nameLength, nameBuffer);
    }

    method AllocateProperties(length: nat, room: bool) returns (block: array?<Property>)
      modifies this
      ensures room <==> block != null
      ensures room ==> fresh(block) && block.Length == length && live == old(live) + {block}
      ensures !room ==> live == old(live)
    {
      block := null;
      if room {
        block := new Property[length](_ => Property(0, 0, 0, 0));
        live := live + {block};
      }
    }

    method AllocatePins(source: array<Pin>, room: bool) returns (block: array?<Pin>)
      modifies this
      ensures room <==> block != null
      ensures room ==> fresh(block) && block[..] == source[..] && live == old(live) + {block}
      ensures !room ==> live == old(live)
    {
      block := null;
      if room {
        block := new Pin[source.Length](i requires 0 <= i < source.Length reads source => source[i]);
        live := live + {block};
      }
    }

    method FreeIfAny(block: object?)
      requires block != null ==> block in live
      modifies this
      ensures live == old(live) - {block}
    {
      if block != null {
        FreePool(block);
      }
    }

    /** What a successful clone holds. */
    ghost predicate Cloned(base: Minipair, nameLength: nat, nameBuffer: nat, category: Category, custom: seq<Property>,
                           clone: Minipair)
      reads base, base.topo, base.topo.pins, base.topoProperties, base.waveProperties
      reads clone, clone.topo, clone.topo.pins, clone.topoProperties, clone.waveProperties
    {
      && clone.topoProperties[..] == base.topoProperties[..] + [Friendly(nameLength, nameBuffer)] + custom
      && clone.waveProperties[..] == base.waveProperties[..]
      && clone.topo.pins[..] == Recategorised(base.topo.pins[..], base.topo.pins.Length, category)
      && clone.topo.rest == base.topo.rest && clone.rest == base.rest
      && clone.topoProperties != clone.waveProperties
    }

    predicate Categorisable(pins: seq<Pin>) {
      |pins| - Audio(pins) == 1 && Audio(pins) <= 1
    }

    /** Fills the five blocks. */
    method Assemble(base: Minipair, nameLength: nat, nameBuffer: nat, category: Category, custom: seq<Property>,
                    pair: Minipair, descriptor: Descriptor, pins: array<Pin>,
                    topoProperties: array<Property>, waveProperties: array<Property>)
        returns (status: Status)
      requires pair != base && descriptor != base.topo && pins != base.topo.pins && topoProperties != waveProperties
      requires {topoProperties, waveProperties} !! {base.topoProperties, base.waveProperties}
      requires topoProperties.Length == base.topoProperties.Length + 1 + |custom|
      requires waveProperties.Length == base.waveProperties.Length
      requires pins[..] == base.topo.pins[..] && descriptor.rest == base.topo.rest && pair.rest == base.rest
      modifies pair, descriptor, pins, topoProperties, waveProperties
      ensures status == Success <==> Categorisable(base.topo.pins[..])
      ensures pair.topo == descriptor && descriptor.pins == pins
      ensures pair.topoProperties == topoProperties && pair.waveProperties == waveProperties
      ensures status == Success ==> Cloned(base, nameLength, nameBuffer, category, custom, pair)
    {
      FillTopoProperties(base.topoProperties, nameLength, nameBuffer, custom, topoProperties);
      CopyProperties(base.waveProperties, waveProperties);
      descriptor.pins := pins;
      pair.topo, pair.topoProperties, pair.waveProperties := descriptor, topoProperties, waveProperties;
      status := UpdateCustomEndpointCategory(pins, category);
    }

    method AllocatePair(base: Minipair, room: bool) returns (block: Minipair?)
      modifies this
      ensures room <==> block != null
      ensures room ==> fresh(block) && block.rest == base.rest && live == old(live) + {block}
      ensures !room ==> live == old(live)
    {
      block := null;
      if room {
        block := new Minipair(base.topo, base.topoProperties, base.waveProperties, base.rest);
        live := live + {block};
      }
    }

    method AllocateDescriptor(base: Descriptor, room: bool) returns (block: Descriptor?)
      modifies this
      ensures room <==> block != null
      ensures room ==> fresh(block) && block.rest == base.rest && live == old(live) + {block}
      ensures !room ==> live == old(live)
    {
      block := null;
      if room {
        block := new Descriptor(base.pins, base.rest);
        live := live + {block};
      }
    }

    method FreeAll(topoProperties: array?<Property>, waveProperties: array?<Property>, pair: Minipair?,
                   descriptor: Descriptor?, pins: array?<Pin>)
      requires forall o: object? ::
        o in {topoProperties, waveProperties, pair, descriptor, pins} && o != null ==> o in live
      requires topoProperties != null ==> topoProperties != waveProperties
      modifies this
      ensures live == old(live) - {topoProperties, waveProperties, pair, descriptor, pins}
    {
      FreeIfAny(topoProperties);
      FreeIfAny(waveProperties);
      FreeIfAny(pair);
      FreeIfAny(descriptor);
      FreeIfAny(pins);
    }

    method AllocateBlocks(base: Minipair, added: nat, rooms: Rooms)
        returns (topoProperties: array?<Property>, pair: Minipair?, descriptor: Descriptor?, pins: array?<Pin>,
                 waveProperties: array?<Property>)
      modifies this
      ensures rooms.topo <==> topoProperties != null
      ensures rooms.pair <==> pair != null
      ensures rooms.descriptor <==> descriptor != null
      ensures rooms.pins <==> pins != null
      ensures rooms.wave <==> waveProperties != null
      ensures topoProperties != null ==>
        && fresh(topoProperties) && topoProperties != waveProperties
        && topoProperties.Length == base.topoProperties.Length + added
      ensures waveProperties != null ==> fresh(waveProperties) && waveProperties.Length == base.waveProperties.Length
      ensures pins != null ==> fresh(pins) && pins[..] == base.topo.pins[..]
      ensures descriptor != null ==> fresh(descriptor) && descriptor.rest == base.topo.rest
      ensures pair != null ==> fresh(pair) && pair.rest == base.rest
      ensures old(live) <= live <= old(live) + {topoProperties, waveProperties, pair, descriptor, pins}
      ensures forall o: object? ::
        o in {topoProperties, waveProperties, pair, descriptor, pins} && o != null ==> o in live
    {
      topoProperties := AllocateProperties(base.topoProperties.Length + added, rooms.topo);
      pair := AllocatePair(base, rooms.pair);
      descriptor := AllocateDescriptor(base.topo, rooms.descriptor);
      pins := AllocatePins(base.topo.pins, rooms.pins);
      waveProperties := AllocateProperties(base.waveProperties.Length, rooms.wave);
    }

    /** What follows the allocations: `before` is what was allocated earlier. */
    method FinishClone(base: Minipair, nameLength: nat, nameBuffer: nat, category: Category, custom: seq<Property>,
                       topoProperties: array?<Property>, pair: Minipair?, descriptor: Descriptor?, pins: array?<Pin>,
                       waveProperties: array?<Property>, ghost before: set<object>)
        returns (status: Status, clone: Minipair?)
      requires pair != base && descriptor != base.topo && pins != base.topo.pins
      requires topoProperties != null ==> topoProperties !in {waveProperties, base.topoProperties, base.waveProperties}
      requires waveProperties != null ==> waveProperties !in {base.topoProperties, base.waveProperties}
      requires topoProperties != null ==> topoProperties.Length == base.topoProperties.Length + 1 + |custom|
      requires waveProperties != null ==> waveProperties.Length == base.waveProperties.Length
      requires pins != null ==> pins[..] == base.topo.pins[..]
      requires descriptor != null ==> descriptor.rest == base.topo.rest
      requires pair != null ==> pair.rest == base.rest
      requires forall o: object? ::
        o in {topoProperties, waveProperties, pair, descriptor, pins} && o != null ==> o in live && o !in before
      requires live <= before + {topoProperties, waveProperties, pair, descriptor, pins} && before <= live
      modifies this, pair, descriptor, pins, topoProperties, waveProperties
      ensures status == Success <==>
        (&& topoProperties != null && pair != null && descriptor != null && pins != null && waveProperties != null
         && Categorisable(base.topo.pins[..]))
      ensures status != Success ==> clone == null && live == before
      ensures status == Success ==>
        && clone == pair && pair != null && pair.Blocks() == {topoProperties, waveProperties, pair, descriptor, pins}
        && live == before + pair.Blocks()
        && Cloned(base, nameLength, nameBuffer, category, custom, pair)
    {
      clone := null;
      if topoProperties != null && pair != null && descriptor != null && pins != null && waveProperties != null {
        status := Assemble(base, nameLength, nameBuffer, category, custom,
                           pair, descriptor, pins, topoProperties, waveProperties);
        if status == Success {
          clone := pair;
          return;
        }
      } else {
        status := InsufficientResources;
      }
      FreeAll(topoProperties, waveProperties, pair, descriptor, pins);
    }

    /** The method changes nothing but its own blocks, so the base stays as it is. */
    method CreateCustomEndpointMinipair(base: Minipair, nameLength: nat, nameBuffer: nat, category: Category,
                                        custom: seq<Property>, rooms: Rooms)
        returns (status: Status, clone: Minipair?)
      modifies this
      ensures status == Success <==> rooms.All() && Categorisable(base.topo.pins[..])
      ensures status != Success ==> clone == null && live == old(live)
      ensures status == Success ==>
        && clone != null && fresh(clone.Blocks()) && live == old(live) + clone.Blocks()
        && Cloned(base, nameLength, nameBuffer, category, custom, clone)
    {
      var topoProperties, pair, descriptor, pins, waveProperties := AllocateBlocks(base, 1 + |custom|, rooms);
      status, clone := FinishClone(base, nameLength, nameBuffer, category, custom,
                                   topoProperties, pair, descriptor, pins, waveProperties, old(live));
    }

    /** The wave properties are not freed. */
    method DeleteCustomEndpointMinipair(pair: Minipair?)
      requires pair != null ==> {pair, pair.topo, pair.topo.pins, pair.topoProperties} <= live
      modifies this
      ensures pair == null ==> live == old(live)
      ensures pair != null ==> live == old(live) - {pair, pair.topo, pair.topo.pins, pair.topoProperties}
    {
      if pair != null {
        FreePool(pair.topoProperties);
        FreePool(pair.topo.pins);
        FreePool(pair.topo);
        FreePool(pair);
      }
    }

    /** A clone that is deleted leaves exactly one block behind: its wave properties. */
    method CreateThenDelete(base: Minipair, nameLength: nat, nameBuffer: nat, category: Category, custom: seq<Property>,
                            rooms: Rooms)
        returns (status: Status, ghost leaked: set<object>)
      modifies this
      ensures live == old(live) + leaked && leaked !! old(live)
      ensures |leaked| == if status == Success then 1 else 0
    {
      var clone;
      status, clone := CreateCustomEndpointMinipair(base, nameLength, nameBuffer, category, custom, rooms);
      leaked := {};
      if clone != null {
        leaked := {clone.waveProperties};
        DeleteCustomEndpointMinipair(clone);
      }
    }
  }
}
