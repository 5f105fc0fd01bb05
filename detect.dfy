/** The device list served to the UI (lib/portaudio/detect.go). */
module Detect {
  import opened Types

  /** The input-capable devices among `devices`, each tagged with its index,
      in list order: what GetDevices returns. */
  function InputDevices(devices: seq<DeviceInfo>): (r: seq<AudioDevice>)
    ensures |r| <= |devices|
    ensures forall k | 0 <= k < |r| :: 0 <= r[k].id < |devices| && r[k].inputs > 0
  {
    if devices == [] then []
    else
      var last := |devices| - 1;
      InputDevices(devices[..last])
      + if devices[last].maxInputChannels > 0
        then [AudioDevice(last, devices[last].name, devices[last].maxInputChannels)]
        else []
  }

  /** An entry stands for device `e.id` of the list: same name, same channel count. */
  predicate Describes(devices: seq<DeviceInfo>, e: AudioDevice)
  {
    0 <= e.id < |devices| && e.name == devices[e.id].name && e.inputs == devices[e.id].maxInputChannels
  }

  /** Everything the filter promises: every entry has inputs and describes the
      device at its index, the ids strictly increase (so no device appears twice
      and the input order is kept), and every input-capable device is listed. */
  lemma InputDevicesCorrect(devices: seq<DeviceInfo>)
    ensures var list := InputDevices(devices);
      && |list| <= |devices|
      && (forall k | 0 <= k < |list| :: list[k].inputs > 0 && Describes(devices, list[k]))
      && (forall k, m | 0 <= k < m < |list| :: list[k].id < list[m].id)
      && (forall i | 0 <= i < |devices| && devices[i].maxInputChannels > 0 :: Listed(list, i))
  {
    InputDevicesDescribe(devices);
    InputDevicesIncreasing(devices);
    InputDevicesComplete(devices);
  }

  /** Every entry has inputs and describes the device at its index; the list is
      no longer than the device list. */
  lemma {:induction false} InputDevicesDescribe(devices: seq<DeviceInfo>)
    ensures |InputDevices(devices)| <= |devices|
    ensures forall k | 0 <= k < |InputDevices(devices)| ::
      InputDevices(devices)[k].inputs > 0 && Describes(devices, InputDevices(devices)[k])
  {
    if devices != [] {
      var last := |devices| - 1;
      var init := devices[..last];
      InputDevicesDescribe(init);
      var prev := InputDevices(init);
      var list := InputDevices(devices);
      forall k | 0 <= k < |list| ensures list[k].inputs > 0 && Describes(devices, list[k]) {
        if k < |prev| {
          assert list[k] == prev[k];
          assert Describes(init, prev[k]);
          assert init[prev[k].id] == devices[prev[k].id];
        }
      }
    }
  }

  /** The ids strictly increase along the list. */
  lemma {:induction false} InputDevicesIncreasing(devices: seq<DeviceInfo>)
    ensures forall k, m | 0 <= k < m < |InputDevices(devices)| ::
      InputDevices(devices)[k].id < InputDevices(devices)[m].id
  {
    if devices != [] {
      var last := |devices| - 1;
      var init := devices[..last];
      InputDevicesIncreasing(init);
      InputDevicesDescribe(init);
      var prev := InputDevices(init);
      var list := InputDevices(devices);
      forall k, m | 0 <= k < m < |list| ensures list[k].id < list[m].id {
        assert list[k] == prev[k];
        if m < |prev| {
          assert list[m] == prev[m];
        } else {
          assert Describes(init, prev[k]);
        }
      }
    }
  }

  /** Device i has an entry in the list. */
  predicate Listed(list: seq<AudioDevice>, i: int)
  {
    exists k :: 0 <= k < |list| && list[k].id == i
  }

  /** Every input-capable device has an entry. */
  lemma {:induction false} InputDevicesComplete(devices: seq<DeviceInfo>)
    ensures forall i | 0 <= i < |devices| && devices[i].maxInputChannels > 0 ::
      Listed(InputDevices(devices), i)
  {
    if devices != [] {
      var last := |devices| - 1;
      var init := devices[..last];
      InputDevicesComplete(init);
      var prev := InputDevices(init);
      var list := InputDevices(devices);
      assert list[..|prev|] == prev;
      forall i | 0 <= i < |devices| && devices[i].maxInputChannels > 0
        ensures Listed(list, i)
      {
        if i < last {
          assert init[i] == devices[i];
          assert Listed(prev, i);
          var k :| 0 <= k < |prev| && prev[k].id == i;
          assert list[k] == prev[k];
        } else {
          assert list[|list| - 1].id == i;
        }
      }
    }
  }

  /** GetDevices: one pass over the devices, appending each input-capable one. */
  method GetDevices(devices: seq<DeviceInfo>) returns (list: seq<AudioDevice>)
    ensures list == InputDevices(devices)
    ensures |list| <= |devices|
    ensures forall k | 0 <= k < |list| :: list[k].inputs > 0 && Describes(devices, list[k])
    ensures forall k, m | 0 <= k < m < |list| :: list[k].id < list[m].id
    ensures forall i | 0 <= i < |devices| && devices[i].maxInputChannels > 0 :: Listed(list, i)
  {
    list := [];
    for i := 0 to |devices|
      invariant list == InputDevices(devices[..i])
    {
      assert devices[..i + 1][..i] == devices[..i];
      if devices[i].maxInputChannels > 0 {
        list := list + [AudioDevice(i, devices[i].name, devices[i].maxInputChannels)];
      }
    }
    assert devices[..|devices|] == devices;
    InputDevicesCorrect(devices);
  }
}
