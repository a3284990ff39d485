// Device selection policy of src/render/vulkan/device.cpp: rating and
// choosing a physical device, scanning its queue families, and deciding once
// whether buffer uploads go through a staging buffer.

module DeviceSelection {
  import opened Common

  datatype QueueFlag = Graphics | Compute | Transfer | SparseBinding

  /** vk::QueueFamilyProperties, reduced to what the scan reads. */
  datatype QueueFamily = QueueFamily(queueFlags: set<QueueFlag>, queueCount: nat)

  /** vk::PhysicalDeviceLimits, reduced to the two limits the rating reads. */
  datatype Limits = Limits(maxImageDimension2D: u32, maxImageDimension3D: u32)

  datatype MemoryPropertyFlag = DeviceLocal | HostVisible | HostCoherent | HostCached | LazilyAllocated

  datatype MemoryType = MemoryType(propertyFlags: set<MemoryPropertyFlag>, heapIndex: nat)

  datatype MemoryHeap = MemoryHeap(size: nat)

  /**
   * vk::PhysicalDeviceMemoryProperties: fixed arrays (32 types, 16 heaps) of
   * which only the first memoryTypeCount / memoryHeapCount entries are meaningful.
   */
  datatype MemoryProperties = MemoryProperties(
    memoryTypeCount: nat,
    memoryTypes: seq<MemoryType>,
    memoryHeapCount: nat,
    memoryHeaps: seq<MemoryHeap>)

  /**
   * What the core asks of a vk::PhysicalDevice. surfaceSupport is the set of
   * queue family indices idx for which getSurfaceSupportKHR(idx, surface)
   * answers true for the renderer's one draw surface.
   */
  datatype PhysicalDevice = PhysicalDevice(
    handle: nat,
    limits: Limits,
    queueFamilies: seq<QueueFamily>,
    surfaceSupport: set<nat>,
    memoryProperties: MemoryProperties)

  /**
   * getDeviceRating: a size_t accumulator starting at 0 to which both image
   * dimension limits are added. Both limits are 32-bit, so the 64-bit sum
   * never wraps and the rating is their plain sum.
   */
  function DeviceRating(device: PhysicalDevice): (score: nat)
    ensures score == device.limits.maxImageDimension2D as int + device.limits.maxImageDimension3D as int
  {
    var score0 := 0;
    var score1 := (score0 + device.limits.maxImageDimension2D as int) % SizeModulus;
    (score1 + device.limits.maxImageDimension3D as int) % SizeModulus
  }

  /**
   * findBestDevice: std::max_element under "rating(a) < rating(b)", which walks
   * left to right and replaces its candidate only on a strictly larger rating.
   * The result is an index of maximal rating, the first one among ties.
   */
  function FindBestDevice(devices: seq<PhysicalDevice>): (best: nat)
    requires |devices| > 0
    ensures best < |devices|
    ensures forall j :: 0 <= j < |devices| ==> DeviceRating(devices[j]) <= DeviceRating(devices[best])
    ensures forall j :: 0 <= j < best ==> DeviceRating(devices[j]) < DeviceRating(devices[best])
  {
    if |devices| == 1 then 0
    else
      var candidate := FindBestDevice(devices[..|devices| - 1]);
      if DeviceRating(devices[candidate]) < DeviceRating(devices[|devices| - 1]) then |devices| - 1
      else candidate
  }

  /** The two queue capabilities the scan demands of a family. */
  predicate HasGraphicsAndTransfer(q: QueueFamily)
  {
    Graphics in q.queueFlags && Transfer in q.queueFlags
  }

  /** Family i exists, does graphics and transfer, and can present to the surface. */
  predicate SuitableFamily(device: PhysicalDevice, i: nat)
  {
    i < |device.queueFamilies| && HasGraphicsAndTransfer(device.queueFamilies[i]) && i in device.surfaceSupport
  }

  /**
   * findIndexOfGraphicsAndPresentQueue as written: the counter idx starts at 0
   * and is never advanced, so every family that passes the two flag tests is
   * asked about surface support of family 0, and the only index it can return
   * is 0. When no family passes, the function panics.
   */
  method FindQueueFamilyAsWritten(device: PhysicalDevice) returns (r: Result<nat>)
    ensures r.Ok? <==>
      0 in device.surfaceSupport &&
      exists i :: 0 <= i < |device.queueFamilies| && HasGraphicsAndTransfer(device.queueFamilies[i])
    ensures r.Ok? ==> r.value == 0
    ensures r.Err? ==> r.reason == NoSuitableQueue
  {
    var idx: nat := 0;
    var k := 0;
    while k < |device.queueFamilies|
      invariant 0 <= k <= |device.queueFamilies|
      invariant forall i :: 0 <= i < k ==> !(HasGraphicsAndTransfer(device.queueFamilies[i]) && idx in device.surfaceSupport)
    {
      var q := device.queueFamilies[k];
      k := k + 1;
      if Graphics !in q.queueFlags {
        continue;
      }
      if Transfer !in q.queueFlags {
        continue;
      }
      if idx !in device.surfaceSupport {
        continue;
      }
      return Ok(idx);
    }
    return Err(NoSuitableQueue);
  }

  /**
   * The scan as evidently intended: idx follows the family being examined, so
   * the result is the first suitable family, and the panic happens exactly
   * when no family is suitable.
   */
  method FindQueueFamily(device: PhysicalDevice) returns (r: Result<nat>)
    ensures r.Ok? ==> SuitableFamily(device, r.value)
    ensures r.Ok? ==> forall i :: 0 <= i < r.value ==> !SuitableFamily(device, i)
    ensures r.Err? <==> forall i :: 0 <= i < |device.queueFamilies| ==> !SuitableFamily(device, i)
    ensures r.Err? ==> r.reason == NoSuitableQueue
  {
    var idx: nat := 0;
    while idx < |device.queueFamilies|
      invariant 0 <= idx <= |device.queueFamilies|
      invariant forall i :: 0 <= i < idx ==> !SuitableFamily(device, i)
    {
      var q := device.queueFamilies[idx];
      if HasGraphicsAndTransfer(q) && idx in device.surfaceSupport {
        assert SuitableFamily(device, idx);
        return Ok(idx);
      }
      idx := idx + 1;
    }
    return Err(NoSuitableQueue);
  }

  /**
   * A device whose family 0 cannot do graphics while family 1 can do
   * everything: the scan as written hands back family 0, the intended scan
   * family 1.
   */
  method QueueScanCounterexample() returns (asWritten: Result<nat>, intended: Result<nat>)
    ensures asWritten == Ok(0)
    ensures !HasGraphicsAndTransfer(ExampleDevice().queueFamilies[0])
    ensures intended == Ok(1)
  {
    var device := ExampleDevice();
    assert HasGraphicsAndTransfer(device.queueFamilies[1]);
    asWritten := FindQueueFamilyAsWritten(device);
    assert SuitableFamily(device, 1) && !SuitableFamily(device, 0);
    intended := FindQueueFamily(device);
  }

  function ExampleDevice(): PhysicalDevice
  {
    PhysicalDevice(
      0,
      Limits(16384, 2048),
      [QueueFamily({Compute, Transfer}, 2), QueueFamily({Graphics, Compute, Transfer}, 16)],
      {0, 1},
      MemoryProperties(0, [], 0, []))
  }

  /** DeviceLocal | HostVisible | HostCoherent */
  const DesiredFlags: set<MemoryPropertyFlag> := {DeviceLocal, HostVisible, HostCoherent}

  /** 257 * 1024 * 1024 bytes */
  const ResizableBarThreshold: nat := 257 * 1024 * 1024

  predicate IsGpuMainMemory(t: MemoryType)
  {
    DesiredFlags <= t.propertyFlags
  }

  /** Heap index of the last memory type carrying all of DesiredFlags. */
  function LastGpuMainMemory(types: seq<MemoryType>): (last: Option<nat>)
    ensures last.Some? ==>
      exists i :: 0 <= i < |types| && IsGpuMainMemory(types[i]) && types[i].heapIndex == last.value
  {
    if |types| == 0 then None
    else if IsGpuMainMemory(types[|types| - 1]) then Some(types[|types| - 1].heapIndex)
    else LastGpuMainMemory(types[..|types| - 1])
  }

  /** Number of memory types carrying all of DesiredFlags. */
  function CountGpuMainMemory(types: seq<MemoryType>): (count: nat)
    ensures count <= |types|
  {
    if |types| == 0 then 0
    else CountGpuMainMemory(types[..|types| - 1]) + (if IsGpuMainMemory(types[|types| - 1]) then 1 else 0)
  }

  /** What Vulkan guarantees of the memory properties it reports. */
  predicate WellFormedMemory(p: MemoryProperties)
  {
    && p.memoryTypeCount <= |p.memoryTypes|
    && p.memoryHeapCount <= |p.memoryHeaps|
    && forall i :: 0 <= i < p.memoryTypeCount ==> p.memoryTypes[i].heapIndex < p.memoryHeapCount
  }

  /**
   * The staging decision: uploads skip the staging buffer only when the last
   * memory type with all of DesiredFlags lives in a heap strictly larger than
   * ResizableBarThreshold.
   */
  function StagingRequired(p: MemoryProperties): bool
    requires WellFormedMemory(p)
  {
    var types := p.memoryTypes[..p.memoryTypeCount];
    var last := LastGpuMainMemory(types);
    !(last.Some? && p.memoryHeaps[last.value].size > ResizableBarThreshold)
  }

  /**
   * The stage_buffers lambda of Device::Device: copy the first memoryTypeCount
   * types into a vector, walk it remembering the heap of the last type with
   * all of DesiredFlags (warning on every match after the first), then compare
   * that heap's size with the threshold.
   */
  method ComputeStageBuffers(p: MemoryProperties) returns (stage: bool, warned: bool)
    requires WellFormedMemory(p)
    ensures stage == StagingRequired(p)
    ensures warned <==> CountGpuMainMemory(p.memoryTypes[..p.memoryTypeCount]) > 1
  {
    var memoryTypes: seq<MemoryType> := [];
    var i := 0;
    while i < p.memoryTypeCount
      invariant 0 <= i <= p.memoryTypeCount
      invariant memoryTypes == p.memoryTypes[..i]
    {
      memoryTypes := memoryTypes + [p.memoryTypes[i]];
      i := i + 1;
    }

    var idxOfGpuMainMemory;
    idxOfGpuMainMemory, warned := ScanMemoryTypes(memoryTypes);

    stage := true;
    if idxOfGpuMainMemory.Some? {
      if p.memoryHeaps[idxOfGpuMainMemory.value].size > ResizableBarThreshold {
        stage := false;
      }
    }
  }

  /**
   * The walk over the copied memory types: remembers the heap of the last
   * type with all of DesiredFlags and warns when a match follows another.
   */
  method ScanMemoryTypes(memoryTypes: seq<MemoryType>) returns (idxOfGpuMainMemory: Option<nat>, warned: bool)
    ensures idxOfGpuMainMemory == LastGpuMainMemory(memoryTypes)
    ensures warned <==> CountGpuMainMemory(memoryTypes) > 1
  {
    idxOfGpuMainMemory := None;
    warned := false;
    for k := 0 to |memoryTypes|
      invariant idxOfGpuMainMemory == LastGpuMainMemory(memoryTypes[..k])
      invariant warned <==> CountGpuMainMemory(memoryTypes[..k]) > 1
    {
      var t := memoryTypes[k];
      ScanStep(memoryTypes, k);
      if IsGpuMainMemory(t) {
        if idxOfGpuMainMemory.Some? {
          warned := true;
        }
        idxOfGpuMainMemory := Some(t.heapIndex);
      }
    }
    assert memoryTypes[..|memoryTypes|] == memoryTypes;
  }

  /** One more memory type seen by the scan: it becomes the last match if it matches, and counts once. */
  lemma ScanStep(types: seq<MemoryType>, k: nat)
    requires k < |types|
    ensures LastGpuMainMemory(types[..k + 1]) ==
      if IsGpuMainMemory(types[k]) then Some(types[k].heapIndex) else LastGpuMainMemory(types[..k])
    ensures CountGpuMainMemory(types[..k + 1]) ==
      CountGpuMainMemory(types[..k]) + if IsGpuMainMemory(types[k]) then 1 else 0
    ensures LastGpuMainMemory(types[..k]).Some? <==> CountGpuMainMemory(types[..k]) > 0
  {
    var seen := types[..k + 1];
    assert seen[..k] == types[..k] && seen[k] == types[k];
    FoundIffCounted(types[..k]);
  }

  /** The scan finds a matching type exactly when it counts at least one. */
  lemma {:induction false} FoundIffCounted(types: seq<MemoryType>)
    ensures LastGpuMainMemory(types).Some? <==> CountGpuMainMemory(types) > 0
  {
    if |types| > 0 && !IsGpuMainMemory(types[|types| - 1]) {
      FoundIffCounted(types[..|types| - 1]);
    }
  }

  /** Memory type i has all of DesiredFlags and no later type has them. */
  predicate LastMatchAt(types: seq<MemoryType>, i: int)
  {
    && 0 <= i < |types|
    && IsGpuMainMemory(types[i])
    && forall j :: i < j < |types| ==> !IsGpuMainMemory(types[j])
  }

  /** LastGpuMainMemory reports the heap of the last matching type, and only that. */
  lemma {:induction false} LastIsLastMatch(types: seq<MemoryType>)
    ensures forall i :: LastMatchAt(types, i) ==> LastGpuMainMemory(types) == Some(types[i].heapIndex)
    ensures LastGpuMainMemory(types).Some? <==> exists i :: LastMatchAt(types, i)
  {
    if |types| > 0 {
      var n := |types| - 1;
      var prefix := types[..n];
      if IsGpuMainMemory(types[n]) {
        assert LastMatchAt(types, n);
        forall i | LastMatchAt(types, i) ensures i == n {
        }
      } else {
        LastIsLastMatch(prefix);
        forall i | LastMatchAt(types, i) ensures LastMatchAt(prefix, i) {
          assert types[i] == prefix[i];
          forall j | i < j < |prefix| ensures !IsGpuMainMemory(prefix[j]) {
            assert types[j] == prefix[j];
          }
        }
        forall i | LastMatchAt(prefix, i) ensures LastMatchAt(types, i) {
          assert types[i] == prefix[i];
          forall j | i < j < |types| ensures !IsGpuMainMemory(types[j]) {
            if j < n {
              assert types[j] == prefix[j];
            }
          }
        }
      }
    }
  }

  /**
   * Reference reading of the decision: staging is skipped exactly when the
   * last memory type with all of DesiredFlags has a heap larger than the
   * threshold; earlier matching types play no part.
   */
  lemma {:induction false} StagingSkippedIff(p: MemoryProperties)
    requires WellFormedMemory(p)
    ensures !StagingRequired(p) <==>
      exists i :: LastMatchAt(p.memoryTypes[..p.memoryTypeCount], i)
        && p.memoryHeaps[p.memoryTypes[i].heapIndex].size > ResizableBarThreshold
  {
    var types := p.memoryTypes[..p.memoryTypeCount];
    LastIsLastMatch(types);
    if !StagingRequired(p) {
      var i :| LastMatchAt(types, i);
      assert types[i] == p.memoryTypes[i];
    }
  }

  /** The queue request of Device::Device: one queue of one family. */
  datatype QueueCreateInfo = QueueCreateInfo(queueFamilyIndex: nat, queueCount: nat)

  /**
   * render::Device: fixed at construction and never changed afterwards.
   * renderQueue is the (family, index) pair passed to getQueue.
   */
  datatype Device = Device(
    physicalDevice: PhysicalDevice,
    renderIndex: nat,
    queueCreateInfos: seq<QueueCreateInfo>,
    renderQueue: (nat, nat),
    stageBuffers: bool)
  {
    /** Device::shouldBuffersStage */
    function ShouldBuffersStage(): bool
    {
      stageBuffers
    }
  }

  /**
   * Device::Device: pick the best physical device, find its queue family (the
   * intended scan), request exactly one queue there, fetch queue 0 of that
   * family, and decide stage_buffers once from the memory properties.
   */
  method NewDevice(devices: seq<PhysicalDevice>) returns (r: Result<Device>)
    requires |devices| > 0
    requires forall d :: d in devices ==> WellFormedMemory(d.memoryProperties)
    ensures r.Ok? <==> exists i :: SuitableFamily(devices[FindBestDevice(devices)], i)
    ensures r.Err? ==> r.reason == NoSuitableQueue
    ensures r.Ok? ==> r.value.physicalDevice == devices[FindBestDevice(devices)]
    ensures r.Ok? ==> SuitableFamily(r.value.physicalDevice, r.value.renderIndex)
    ensures r.Ok? ==> r.value.queueCreateInfos == [QueueCreateInfo(r.value.renderIndex, 1)]
    ensures r.Ok? ==> r.value.renderQueue == (r.value.renderIndex, 0)
    ensures r.Ok? ==> r.value.ShouldBuffersStage() == StagingRequired(r.value.physicalDevice.memoryProperties)
  {
    var physicalDevice := devices[FindBestDevice(devices)];
    var found := FindQueueFamily(physicalDevice);
    if found.Err? {
      assert forall i :: !SuitableFamily(physicalDevice, i);
      return Err(found.reason);
    }
    var renderIndex := found.value;
    assert SuitableFamily(physicalDevice, renderIndex);
    var queueCreateInfos := [QueueCreateInfo(renderIndex, 1)];
    var stage, _ := ComputeStageBuffers(physicalDevice.memoryProperties);
    r := Ok(Device(physicalDevice, renderIndex, queueCreateInfos, (renderIndex, 0), stage));
    assert SuitableFamily(devices[FindBestDevice(devices)], renderIndex);
  }

  /**
   * Device::Device as written: the scan it calls never advances its index,
   * so the device is built on family 0 whenever family 0 can present and
   * some family has graphics and transfer, whether or not family 0 has them.
   */
  method NewDeviceAsWritten(devices: seq<PhysicalDevice>) returns (r: Result<Device>)
    requires |devices| > 0
    requires forall d :: d in devices ==> WellFormedMemory(d.memoryProperties)
    ensures var chosen := devices[FindBestDevice(devices)];
      r.Ok? <==> (0 in chosen.surfaceSupport &&
        exists i :: 0 <= i < |chosen.queueFamilies| && HasGraphicsAndTransfer(chosen.queueFamilies[i]))
    ensures r.Err? ==> r.reason == NoSuitableQueue
    ensures r.Ok? ==> r.value.physicalDevice == devices[FindBestDevice(devices)]
    ensures r.Ok? ==> r.value.renderIndex == 0
    ensures r.Ok? ==> r.value.queueCreateInfos == [QueueCreateInfo(0, 1)] && r.value.renderQueue == (0, 0)
    ensures r.Ok? ==> r.value.ShouldBuffersStage() == StagingRequired(r.value.physicalDevice.memoryProperties)
  {
    var physicalDevice := devices[FindBestDevice(devices)];
    var found := FindQueueFamilyAsWritten(physicalDevice);
    if found.Err? {
      return Err(found.reason);
    }
    var renderIndex := found.value;
    var queueCreateInfos := [QueueCreateInfo(renderIndex, 1)];
    var stage, _ := ComputeStageBuffers(physicalDevice.memoryProperties);
    r := Ok(Device(physicalDevice, renderIndex, queueCreateInfos, (renderIndex, 0), stage));
  }

  /**
   * On the example device, the device as written puts its one queue on
   * family 0, which cannot do graphics; the corrected device uses family 1.
   */
  method DeviceCounterexample() returns (asWritten: Result<Device>, intended: Result<Device>)
    ensures asWritten.Ok? && asWritten.value.physicalDevice == ExampleDevice()
    ensures asWritten.value.renderIndex == 0 && !HasGraphicsAndTransfer(ExampleDevice().queueFamilies[0])
    ensures intended.Ok? && intended.value.renderIndex == 1
  {
    var device := ExampleDevice();
    assert WellFormedMemory(device.memoryProperties);
    assert FindBestDevice([device]) == 0;
    assert HasGraphicsAndTransfer(device.queueFamilies[1]);
    asWritten := NewDeviceAsWritten([device]);
    assert SuitableFamily(device, 1) && !SuitableFamily(device, 0);
    intended := NewDevice([device]);
  }
}
