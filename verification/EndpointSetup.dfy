/**
 Setting up the endpoints of a sideband device: finding a hardware format the device supports, and cloning an endpoint's
 descriptors with a friendly name, the profile driver's properties and another pin category.
 */
module EndpointSetup {

  datatype Status = Success | NotFound | NotSupported | InvalidDeviceState | InsufficientResources

  // ----- format search

  datatype Wave = Wave(samplesPerSec: nat, channels: nat, bitsPerSample: nat)

  /** A format of the device; `size` is the length it declares. */
  datatype DeviceFormat = DeviceFormat(size: nat, wave: Wave)

  predicate Fits(f: DeviceFormat, hardware: Wave, headerSize: nat, waveSize: nat) {
    f.size >= headerSize && f.size >= waveSize && f.wave == hardware
  }

  predicate Supported(formats: seq<DeviceFormat>, hardware: Wave, headerSize: nat, waveSize: nat) {
    exists j :: 0 <= j < |formats| && Fits(formats[j], hardware, headerSize, waveSize)
  }

  /** The break leaves only the inner loop, so of several supported hardware formats the last one is chosen. */
  method VerifyEndpointFormatCompatibility(formats: seq<DeviceFormat>, hardware: seq<Wave>,
                                           headerSize: nat, waveSize: nat, before: nat)
      returns (status: Status, index: nat)
    ensures status == Success || status == NotSupported
    ensures status == Success <==>
      exists i :: 0 <= i < |hardware| && Supported(formats, hardware[i], headerSize, waveSize)
    ensures status == Success ==> index < |hardware| && Supported(formats, hardware[index], headerSize, waveSize)
    ensures status == Success ==>
      forall i :: index < i < |hardware| ==> !Supported(formats, hardware[i], headerSize, waveSize)
    ensures status == NotSupported ==> index == before
  {
    status, index := NotSupported, before;
    var i := 0;
    while i < |hardware|
      invariant 0 <= i <= |hardware| && (status == Success || status == NotSupported)
      invariant status == NotSupported ==> index == before
      invariant status == Success ==> index < i && Supported(formats, hardware[index], headerSize, waveSize)
      invariant forall k :: (if status == Success then index + 1 else 0) <= k < i ==>
        !Supported(formats, hardware[k], headerSize, waveSize)
    {
      var j := 0;
      while j < |formats|
        invariant 0 <= j <= |formats|
        invariant forall k :: 0 <= k < j ==> !Fits(formats[k], hardware[i], headerSize, waveSize)
      {
        if formats[j].size >= headerSize {
          if formats[j].size >= waveSize {
            if formats[j].wave == hardware[i] {
              index := i;
              status := Success;
              break;
            }
          }
        }
        j := j + 1;
      }
      i := i + 1;
    }
  }

  // ----- the pin category

  type Category = nat

  const KSCATEGORY_AUDIO: Category := 0

  datatype Pin = Pin(category: Category, rest: int)

  function Audio(pins: seq<Pin>): nat {
    if pins == [] then 0
    else Audio(pins[..|pins| - 1]) + if pins[|pins| - 1].category == KSCATEGORY_AUDIO then 1 else 0
  }

  lemma {:induction false} AudioGrows(pins: seq<Pin>, k: nat)
    requires k <= |pins|
    ensures Audio(pins[..k]) <= Audio(pins) <= Audio(pins[..k]) + (|pins| - k)
    decreases |pins|
  {
    if k < |pins| {
      AudioGrows(pins[..|pins| - 1], k);
      assert pins[..|pins| - 1][..k] == pins[..k];
    } else {
      assert pins[..k] == pins;
    }
  }

  /** The pins with every node-type pin below `k` given the new category. */
  function Recategorised(pins: seq<Pin>, k: nat, category: Category): (r: seq<Pin>)
    requires k <= |pins|
    ensures |r| == |pins|
  {
    seq(|pins|, i requires 0 <= i < |pins| =>
      if i < k && pins[i].category != KSCATEGORY_AUDIO then pins[i].(category := category) else pins[i])
  }

  /** Succeeds exactly if one pin has a node type and at most one is an audio pin, and then changes that pin only. */
  method UpdateCustomEndpointCategory(pins: array<Pin>, category: Category) returns (status: Status)
    modifies pins
    ensures var audio := Audio(old(pins[..])); var nodes := pins.Length - audio;
      && (status == Success <==> nodes == 1 && audio <= 1)
      && (status == NotFound <==> nodes == 0 && audio <= 1)
      && (status == Success || status == NotFound || status == InvalidDeviceState)
    ensures status == Success ==> pins[..] == Recategorised(old(pins[..]), pins.Length, category)
    ensures status == Success ==> forall i :: 0 <= i < pins.Length ==>
      pins[i].rest == old(pins[i]).rest
      && (pins[i].category == if old(pins[i]).category == KSCATEGORY_AUDIO then KSCATEGORY_AUDIO else category)
    ensures exists k :: 0 <= k <= pins.Length && pins[..] == Recategorised(old(pins[..]), k, category)
  {
    status := NotFound;
    var foundAudio, foundNode := false, false;
    ghost var before := pins[..];
    var i := 0;
    assert before[..0] == [];
    while i < pins.Length
      invariant 0 <= i <= pins.Length
      invariant Audio(before[..i]) == (if foundAudio then 1 else 0)
      invariant i - Audio(before[..i]) == (if foundNode then 1 else 0)
      invariant status == if foundNode then Success else NotFound
      invariant pins[..] == Recategorised(before, i, category)
    {
      assert before[..i + 1][..i] == before[..i];
      assert pins[i] == pins[..][i] == before[i];
      AudioGrows(before, i + 1);
      if pins[i].category == KSCATEGORY_AUDIO {
        if foundAudio {
          status := InvalidDeviceState;
          break;
        }
        foundAudio := true;
        i := i + 1;
        continue;
      }
      if foundNode {
        status := InvalidDeviceState;
        break;
      }
      pins[i] := pins[i].(category := category);
      foundNode := true;
      status := Success;
      i := i + 1;
    }
    assert forall k :: 0 <= k < pins.Length ==> pins[k] == pins[..][k];
  }
}
