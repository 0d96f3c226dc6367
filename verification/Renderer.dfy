/** `VulkanRenderer`: the checks it makes while bringing Vulkan up (are the
    requested validation layers present, which physical device to use) and
    the pairing of swapchain images, framebuffers and command buffers.
    Enumeration results, the device-suitability test and handles created by
    the driver are parameters; the commands recorded into each command
    buffer are a log of abstract commands. */
module Renderer {
  import opened Wrappers

  // ---------------------------------------------------------------------------
  // Validation layers

  /** Every requested layer name equals the name of some available layer. */
  predicate AllLayersAvailable(requested: seq<string>, available: seq<string>)
  {
    forall i :: 0 <= i < |requested| ==> requested[i] in available
  }

  /** `checkValidationLayerSupport`: for each requested name in turn, scans
      the available layers until one matches; returns false at the first
      name nothing matches, and true when every name was matched. */
  method CheckValidationLayerSupport(validationLayers: seq<string>, availableLayers: seq<string>)
    returns (supported: bool)
    ensures supported <==> AllLayersAvailable(validationLayers, availableLayers)
    ensures !supported ==> exists i :: 0 <= i < |validationLayers| && validationLayers[i] !in availableLayers
  {
    for i := 0 to |validationLayers|
      invariant forall k :: 0 <= k < i ==> validationLayers[k] in availableLayers
    {
      var layerName := validationLayers[i];
      var layerFound := false;
      var j := 0;
      while j < |availableLayers|
        invariant j <= |availableLayers|
        invariant !layerFound ==> forall k :: 0 <= k < j ==> availableLayers[k] != layerName
        invariant layerFound ==> layerName in availableLayers
      {
        if layerName == availableLayers[j] {
          layerFound := true;
          break;
        }
        j := j + 1;
      }
      if !layerFound {
        return false;
      }
    }
    return true;
  }

  /** The answer depends only on which names are available, not on the
      order in which the driver lists them. */
  lemma LayerCheckIgnoresOrder(requested: seq<string>, available: seq<string>, reordered: seq<string>)
    requires multiset(available) == multiset(reordered)
    ensures AllLayersAvailable(requested, available) == AllLayersAvailable(requested, reordered)
  {
    forall name | name in available
      ensures name in reordered
    {
      assert name in multiset(available);
    }
    forall name | name in reordered
      ensures name in available
    {
      assert name in multiset(reordered);
    }
  }

  /** One requested name that no layer has rejects the request, whatever
      names come before or after it. */
  lemma MissingLayerRejects(before: seq<string>, missing: string, after: seq<string>, available: seq<string>)
    requires missing !in available
    ensures !AllLayersAvailable(before + [missing] + after, available)
  {
    assert (before + [missing] + after)[|before|] == missing;
  }

  // ---------------------------------------------------------------------------
  // Physical-device selection

  /** A `VkPhysicalDevice` handle. */
  type DeviceHandle = nat

  /** What the loop in `pickPhysicalDevice` selects: it looks at the first
      enumerated device only, since its body ends in an unconditional
      `break`. No selection stands for the case where nothing is assigned and
      the null-handle check then reads the uninitialised local
      `physicalDevice`. */
  function FirstDeviceIfSuitable(devices: seq<DeviceHandle>, isSuitable: DeviceHandle -> bool): Option<DeviceHandle>
  {
    if |devices| > 0 && isSuitable(devices[0]) then Some(devices[0]) else None
  }

  /** The evidently intended selection: the first suitable device in
      enumeration order, if any. */
  function FirstSuitable(devices: seq<DeviceHandle>, isSuitable: DeviceHandle -> bool): Option<DeviceHandle>
    decreases |devices|
  {
    if devices == [] then None
    else if isSuitable(devices[0]) then Some(devices[0])
    else FirstSuitable(devices[1..], isSuitable)
  }

  /** `FirstSuitable` selects a suitable device that no earlier device
      beats, and selects nothing exactly when no device is suitable. */
  lemma {:induction false} FirstSuitableIsFirst(devices: seq<DeviceHandle>, isSuitable: DeviceHandle -> bool)
    ensures FirstSuitable(devices, isSuitable).None? <==> forall k :: 0 <= k < |devices| ==> !isSuitable(devices[k])
    ensures FirstSuitable(devices, isSuitable).Some? ==>
      exists i :: 0 <= i < |devices| && devices[i] == FirstSuitable(devices, isSuitable).value
        && isSuitable(devices[i]) && forall k :: 0 <= k < i ==> !isSuitable(devices[k])
    decreases |devices|
  {
    if devices != [] && !isSuitable(devices[0]) {
      var rest := devices[1..];
      FirstSuitableIsFirst(rest, isSuitable);
      assert forall k :: 0 < k < |devices| ==> devices[k] == rest[k - 1];
      if FirstSuitable(rest, isSuitable).Some? {
        var i :| 0 <= i < |rest| && rest[i] == FirstSuitable(rest, isSuitable).value
          && isSuitable(rest[i]) && forall k :: 0 <= k < i ==> !isSuitable(rest[k]);
        assert devices[i + 1] == rest[i];
        assert forall k :: 0 <= k < i + 1 ==> !isSuitable(devices[k]) by {
          forall k | 0 < k < i + 1 ensures !isSuitable(devices[k]) {
            assert devices[k] == rest[k - 1];
          }
        }
      } else {
        forall k | 0 <= k < |devices| ensures !isSuitable(devices[k]) {
          if k > 0 {
            assert devices[k] == rest[k - 1];
          }
        }
      }
    }
  }

  /** `pickPhysicalDevice` as written: the device loop breaks after its
      first iteration whether or not that device was suitable. */
  method PickPhysicalDevice(devices: seq<DeviceHandle>, isSuitable: DeviceHandle -> bool)
    returns (selected: Option<DeviceHandle>)
    ensures selected == FirstDeviceIfSuitable(devices, isSuitable)
    ensures selected.Some? <==> |devices| > 0 && isSuitable(devices[0])
  {
    selected := None;
    for i := 0 to |devices|
      invariant i == 0 && selected == None
    {
      var device := devices[i];
      if isSuitable(device) {
        selected := Some(device);
      }
      break;
    }
  }

  /** The corrected selection loop: keeps looking until a suitable device
      is found. */
  method PickFirstSuitable(devices: seq<DeviceHandle>, isSuitable: DeviceHandle -> bool)
    returns (selected: Option<DeviceHandle>)
    ensures selected == FirstSuitable(devices, isSuitable)
    ensures selected.None? <==> forall k :: 0 <= k < |devices| ==> !isSuitable(devices[k])
  {
    selected := None;
    var i := 0;
    while i < |devices|
      invariant i <= |devices|
      invariant FirstSuitable(devices, isSuitable) == FirstSuitable(devices[i..], isSuitable)
    {
      assert devices[i..][1..] == devices[i + 1..];
      if isSuitable(devices[i]) {
        selected := Some(devices[i]);
        FirstSuitableIsFirst(devices, isSuitable);
        return;
      }
      i := i + 1;
    }
    FirstSuitableIsFirst(devices, isSuitable);
  }

  /** With a first device that is not suitable and a second that is, the
      loop as written assigns nothing (and then reads the uninitialised
      local), while the first suitable device is the second one. */
  lemma SecondSuitableDeviceIsMissed()
    ensures FirstDeviceIfSuitable([1, 2], d => d == 2) == None
    ensures FirstSuitable([1, 2], d => d == 2) == Some(2)
  {
    assert [1, 2][1..] == [2];
  }

  /** Where the first device is suitable, the two selections agree. */
  lemma SelectionsAgreeOnSuitableFirst(devices: seq<DeviceHandle>, isSuitable: DeviceHandle -> bool)
    requires |devices| > 0 && isSuitable(devices[0])
    ensures FirstDeviceIfSuitable(devices, isSuitable) == FirstSuitable(devices, isSuitable)
  {
  }

  // ---------------------------------------------------------------------------
  // Framebuffers and command buffers

  /** A `VulkanFramebuffer`: empty as first constructed, then created over
      one swapchain image view. */
  datatype Framebuffer =
    | NullFramebuffer
    | Framebuffer(renderPass: nat, attachment: nat, width: nat, height: nat)

  /** A command recorded by `buildCommandbuffers`. */
  datatype RenderCommand =
    | BeginRenderPass(renderPass: nat, framebuffer: Framebuffer, width: nat, height: nat)
    | BindGraphicsPipeline(pipeline: nat)
    | Draw(vertexCount: nat, instanceCount: nat, firstVertex: nat, firstInstance: nat)
    | EndRenderPass

  /** `std::vector::resize(n, fill)`: keeps the first `n` elements, and
      pads with `fill` up to `n`. */
  function Resized<T>(s: seq<T>, n: nat, fill: T): (r: seq<T>)
    ensures |r| == n
    ensures forall i :: 0 <= i < n ==> r[i] == if i < |s| then s[i] else fill
  {
    if n <= |s| then s[..n] else s + seq(n - |s|, _ => fill)
  }

  /** The commands recorded into one command buffer for one framebuffer:
      a render pass over it, the pipeline, a three-vertex draw. */
  function FrameCommands(renderPass: nat, framebuffer: Framebuffer, width: nat, height: nat, pipeline: nat): seq<RenderCommand>
  {
    [ BeginRenderPass(renderPass, framebuffer, width, height),
      BindGraphicsPipeline(pipeline),
      Draw(3, 1, 0, 0),
      EndRenderPass ]
  }

  class VulkanRenderer {
    /** `params.x`, `params.y`: the window and render-area extent. */
    const width: nat
    const height: nat
    const renderPass: nat
    var framebuffers: seq<Framebuffer>
    /** The commands recorded into each allocated command buffer. */
    var commandBuffers: seq<seq<RenderCommand>>

    constructor (width: nat, height: nat, renderPass: nat)
      ensures this.width == width && this.height == height && this.renderPass == renderPass
      ensures framebuffers == [] && commandBuffers == []
    {
      this.width, this.height, this.renderPass := width, height, renderPass;
      framebuffers, commandBuffers := [], [];
    }

    /** Resizes the framebuffer vector to one entry per swapchain image,
        then creates framebuffer `i` over image view `i` at the window's
        extent. */
    method InitFramebuffers(imageViews: seq<nat>)
      modifies this`framebuffers
      ensures |framebuffers| == |imageViews|
      ensures forall i :: 0 <= i < |imageViews| ==>
        framebuffers[i] == Framebuffer(renderPass, imageViews[i], width, height)
    {
      framebuffers := Resized(framebuffers, |imageViews|, NullFramebuffer);
      for i := 0 to |imageViews|
        invariant |framebuffers| == |imageViews|
        invariant forall k :: 0 <= k < i ==> framebuffers[k] == Framebuffer(renderPass, imageViews[k], width, height)
      {
        framebuffers := framebuffers[i := Framebuffer(renderPass, imageViews[i], width, height)];
      }
    }

    /** Resizes the command-buffer vector to one per framebuffer and
        allocates them all, empty. */
    method InitCommandBuffers()
      modifies this`commandBuffers
      ensures |commandBuffers| == |framebuffers|
      ensures forall i :: 0 <= i < |commandBuffers| ==> commandBuffers[i] == []
    {
      commandBuffers := seq(|framebuffers|, _ => []);
    }

    /** Records, into command buffer `i` and for every `i`, a render pass
        over framebuffer `i` that binds `pipeline` and draws three
        vertices. The source indexes the framebuffers by the command
        buffer's position without a check. */
    method BuildCommandBuffers(pipeline: nat)
      requires |commandBuffers| <= |framebuffers|
      modifies this`commandBuffers
      ensures |commandBuffers| == old(|commandBuffers|)
      ensures forall i :: 0 <= i < |commandBuffers| ==>
        commandBuffers[i] == FrameCommands(renderPass, framebuffers[i], width, height, pipeline)
    {
      for i := 0 to |commandBuffers|
        invariant |commandBuffers| == old(|commandBuffers|)
        invariant forall k :: 0 <= k < i ==>
          commandBuffers[k] == FrameCommands(renderPass, framebuffers[k], width, height, pipeline)
      {
        commandBuffers := commandBuffers[i := FrameCommands(renderPass, framebuffers[i], width, height, pipeline)];
      }
    }
  }

  /** Bring-up followed by a recording: with `n` swapchain images there are
      `n` framebuffers and `n` command buffers, and command buffer `i`
      renders into the framebuffer over image view `i`. */
  method RecordForSwapchain(imageViews: seq<nat>, width: nat, height: nat, renderPass: nat, pipeline: nat)
    returns (framebufferCount: nat, recorded: seq<seq<RenderCommand>>)
    ensures framebufferCount == |imageViews| && |recorded| == |imageViews|
    ensures forall i :: 0 <= i < |recorded| ==>
      && |recorded[i]| == 4
      && recorded[i][0].BeginRenderPass?
      && recorded[i][0].framebuffer == Framebuffer(renderPass, imageViews[i], width, height)
      && recorded[i][1] == BindGraphicsPipeline(pipeline)
  {
    var renderer := new VulkanRenderer(width, height, renderPass);
    renderer.InitFramebuffers(imageViews);
    renderer.InitCommandBuffers();
    renderer.BuildCommandBuffers(pipeline);
    framebufferCount := |renderer.framebuffers|;
    recorded := renderer.commandBuffers;
  }
}
