/** `VulkanMeshRenderManager`: one dynamic uniform buffer of MVP matrices and
    one descriptor set per frame in flight, and the draw loop that writes
    each actor's matrix into the current frame's buffer and binds that
    frame's descriptor set at the matching dynamic offset.

    Recorded Vulkan commands are an appended log of abstract commands; the
    matrix math is floating point and is not modelled, so a draw item
    carries its MVP matrix as the 64 bytes that `update` copies. */
module MeshRenderManager {
  import opened Wrappers
  import opened Bytes
  import opened Alignment
  import opened GpuBuffer
  import opened DynamicBuffer

  /** `sizeof(glm::mat4)`: sixteen 4-byte floats. */
  const Mat4Size: nat := 64

  /** Handles supplied by the shared pipeline resource. */
  datatype PipelineHandles = PipelineHandles(pipeline: nat, layout: nat, setLayout: nat)

  /** The range of a descriptor's buffer binding. */
  datatype DescriptorRange = WholeSize | Span(bytes: nat)

  /** What a written descriptor set points at (`VkDescriptorBufferInfo`). */
  datatype BufferInfo = BufferInfo(buffer: VulkanBuffer, offset: nat, range: DescriptorRange)

  /** One element of the draw list: the actor's mesh instance and matrix. */
  datatype DrawItem = DrawItem(
    descriptorIndex: u32,   // the mesh instance's stable per-instance index
    mvp: seq<byte>,         // proj * view * transform, as bytes
    vertexBuffer: nat,
    indexBuffer: nat,
    indexCount: nat)

  /** A command recorded into a command buffer. */
  datatype Command =
    | BindPipeline(pipeline: nat)
    | BindDescriptorSets(layout: nat, descriptorSet: nat, dynamicOffset: u32)
    | BindVertexBuffers(buffer: nat, offset: nat)
    | BindIndexBuffer(buffer: nat, offset: nat)
    | DrawIndexed(indexCount: u32, instanceCount: nat)

  class CommandBuffer {
    var commands: seq<Command>

    constructor ()
      ensures commands == []
    {
      commands := [];
    }

    method Record(c: Command)
      modifies this
      ensures commands == old(commands) + [c]
    {
      commands := commands + [c];
    }
  }

  /** `VulkanRenderFrame`: the command buffer being recorded and the index
      of the frame in flight. */
  datatype RenderFrame = RenderFrame(commandBuffer: CommandBuffer, currentFrameIndex: nat)

  /** The dynamic offset handed to `vkCmdBindDescriptorSets`:
      `static_cast<uint32_t>(stride * index)`. */
  function BoundOffset(stride: nat, index: nat): u32
  {
    ToU32(stride * index)
  }

  /** When a frame's whole buffer fits in 32-bit offsets, the offset bound
      for any instance in range is exactly the byte offset its record was
      written at. */
  lemma BoundOffsetIsWriteOffset(stride: nat, capacity: nat, index: nat)
    requires index < capacity && stride * capacity <= U32Modulus
    ensures BoundOffset(stride, index) == SlotOffset(stride, index)
  {
    if stride > 0 {
      MulMonotone(index + 1, capacity, stride);
      assert stride * index < stride * (index + 1);
    }
  }

  /** The four commands recorded for one draw-list element. */
  function ItemCommands(layout: nat, descriptorSet: nat, stride: nat, item: DrawItem): seq<Command>
  {
    [ BindDescriptorSets(layout, descriptorSet, BoundOffset(stride, item.descriptorIndex)),
      BindVertexBuffers(item.vertexBuffer, 0),
      BindIndexBuffer(item.indexBuffer, 0),
      DrawIndexed(ToU32(item.indexCount), 1) ]
  }

  /** The commands recorded for a draw list after the pipeline bind, in
      list order. */
  function DrawCommands(layout: nat, descriptorSet: nat, stride: nat, items: seq<DrawItem>): seq<Command>
    decreases |items|
  {
    if items == [] then []
    else DrawCommands(layout, descriptorSet, stride, items[..|items| - 1])
         + ItemCommands(layout, descriptorSet, stride, items[|items| - 1])
  }

  /** Four commands per draw-list element. */
  lemma {:induction false} DrawCommandsLength(layout: nat, descriptorSet: nat, stride: nat, items: seq<DrawItem>)
    ensures |DrawCommands(layout, descriptorSet, stride, items)| == 4 * |items|
    decreases |items|
  {
    if items != [] {
      DrawCommandsLength(layout, descriptorSet, stride, items[..|items| - 1]);
    }
  }

  lemma SliceOfFront<T>(front: seq<T>, back: seq<T>, lo: nat, hi: nat)
    requires lo <= hi <= |front|
    ensures (front + back)[lo..hi] == front[lo..hi]
  {
  }

  lemma SliceOfBack<T>(front: seq<T>, back: seq<T>)
    ensures (front + back)[|front|..|front| + |back|] == back
  {
  }

  /** Each draw-list element `k`, in order, contributes exactly the four
      commands at positions `4k .. 4k + 4`: a bind of descriptor set `descriptorSet`
      at the element's dynamic offset, a vertex-buffer bind, an index-buffer
      bind and an indexed draw. */
  lemma {:induction false} DrawCommandsLayout(layout: nat, descriptorSet: nat, stride: nat, items: seq<DrawItem>, k: nat)
    requires k < |items|
    ensures |DrawCommands(layout, descriptorSet, stride, items)| == 4 * |items|
    ensures DrawCommands(layout, descriptorSet, stride, items)[4 * k..4 * k + 4] == ItemCommands(layout, descriptorSet, stride, items[k])
    decreases |items|
  {
    DrawCommandsLength(layout, descriptorSet, stride, items);
    var n := |items|;
    var front := items[..n - 1];
    var before := DrawCommands(layout, descriptorSet, stride, front);
    var last := ItemCommands(layout, descriptorSet, stride, items[n - 1]);
    assert DrawCommands(layout, descriptorSet, stride, items) == before + last;
    DrawCommandsLength(layout, descriptorSet, stride, front);
    if k < n - 1 {
      DrawCommandsLayout(layout, descriptorSet, stride, front, k);
      assert front[k] == items[k];
      SliceOfFront(before, last, 4 * k, 4 * k + 4);
    } else {
      SliceOfBack(before, last);
    }
  }

  /** What a draw list may ask of a frame's buffer: every instance index is
      in range and every matrix has the record size. */
  predicate DrawableIn(items: seq<DrawItem>, capacity: nat, recordSize: nat)
  {
    forall k :: 0 <= k < |items| ==> items[k].descriptorIndex < capacity && |items[k].mvp| == recordSize
  }

  /** A frame buffer's bytes after the draw loop has written every element's
      matrix, in list order. */
  function WritesApplied(mem: seq<byte>, stride: nat, recordSize: nat, capacity: nat, items: seq<DrawItem>): (r: seq<byte>)
    requires recordSize <= stride && |mem| == stride * capacity
    requires DrawableIn(items, capacity, recordSize)
    ensures |r| == |mem|
    decreases |items|
  {
    if items == [] then mem
    else
      var last := items[|items| - 1];
      var before := WritesApplied(mem, stride, recordSize, capacity, items[..|items| - 1]);
      SlotInBounds(stride, recordSize, last.descriptorIndex, capacity);
      Splice(before, SlotOffset(stride, last.descriptorIndex), last.mvp)
  }

  /** The matrix of the last element of `items` drawn at instance `j`. */
  function LastWriteTo(items: seq<DrawItem>, j: nat): Option<seq<byte>>
    decreases |items|
  {
    if items == [] then None
    else if items[|items| - 1].descriptorIndex == j then Some(items[|items| - 1].mvp)
    else LastWriteTo(items[..|items| - 1], j)
  }

  /** After the draw loop, instance `j` of the frame's buffer holds the
      matrix of the last element drawn at `j`, and an instance no element
      was drawn at keeps its old bytes. */
  lemma {:induction false} WritesAppliedSlot(mem: seq<byte>, stride: nat, recordSize: nat, capacity: nat,
                                             items: seq<DrawItem>, j: nat)
    requires recordSize <= stride && |mem| == stride * capacity
    requires DrawableIn(items, capacity, recordSize) && j < capacity
    ensures SlotOffset(stride, j) + recordSize <= |mem|
    ensures SlotBytes(WritesApplied(mem, stride, recordSize, capacity, items), stride, recordSize, j)
         == match LastWriteTo(items, j)
            case Some(v) => v
            case None => SlotBytes(mem, stride, recordSize, j)
    decreases |items|
  {
    SlotInBounds(stride, recordSize, j, capacity);
    if items != [] {
      var n := |items|;
      var last := items[n - 1];
      var front := items[..n - 1];
      assert DrawableIn(front, capacity, recordSize) by {
        forall k | 0 <= k < |front| ensures front[k] == items[k] { }
      }
      WritesAppliedSlot(mem, stride, recordSize, capacity, front, j);
      var before := WritesApplied(mem, stride, recordSize, capacity, front);
      WriteThenRead(before, stride, recordSize, capacity, last.descriptorIndex, j, last.mvp);
    }
  }

  /** An element with no later element at the same index is the last write
      to its instance. */
  lemma {:induction false} LastWriteIsOwn(items: seq<DrawItem>, k: nat)
    requires k < |items|
    requires forall l :: k < l < |items| ==> items[l].descriptorIndex != items[k].descriptorIndex
    ensures LastWriteTo(items, items[k].descriptorIndex) == Some(items[k].mvp)
    decreases |items|
  {
    var n := |items|;
    if k < n - 1 {
      var front := items[..n - 1];
      assert front[k] == items[k];
      assert forall l :: k < l < |front| ==> front[l] == items[l];
      LastWriteIsOwn(front, k);
    }
  }

  /** The draw loop's offsets agree with its writes: for an element that no
      later element overwrites, the descriptor-set bind recorded for it
      carries a dynamic offset at which the frame's buffer, after the loop,
      holds exactly that element's matrix, provided the buffer fits in
      32-bit offsets. */
  lemma BoundOffsetAddressesDrawnMatrix(layout: nat, descriptorSet: nat, stride: nat, mem: seq<byte>,
                                        capacity: nat, items: seq<DrawItem>, k: nat)
    requires Mat4Size <= stride && |mem| == stride * capacity && stride * capacity <= U32Modulus
    requires DrawableIn(items, capacity, Mat4Size) && k < |items|
    requires forall l :: k < l < |items| ==> items[l].descriptorIndex != items[k].descriptorIndex
    ensures |DrawCommands(layout, descriptorSet, stride, items)| == 4 * |items|
    ensures DrawCommands(layout, descriptorSet, stride, items)[4 * k].BindDescriptorSets?
    ensures DrawCommands(layout, descriptorSet, stride, items)[4 * k].descriptorSet == descriptorSet
    ensures var off := DrawCommands(layout, descriptorSet, stride, items)[4 * k].dynamicOffset;
      && off + Mat4Size <= |mem|
      && WritesApplied(mem, stride, Mat4Size, capacity, items)[off..off + Mat4Size] == items[k].mvp
  {
    var index := items[k].descriptorIndex;
    DrawCommandsLayout(layout, descriptorSet, stride, items, k);
    var cmds := DrawCommands(layout, descriptorSet, stride, items);
    assert cmds[4 * k] == cmds[4 * k..4 * k + 4][0];
    BoundOffsetIsWriteOffset(stride, capacity, index);
    LastWriteIsOwn(items, k);
    WritesAppliedSlot(mem, stride, Mat4Size, capacity, items, index);
  }

  class VulkanMeshRenderManager {
    const pipeline: PipelineHandles
    /** The device's `minUniformBufferOffsetAlignment`. */
    const minAlignment: nat
    const maxObjects: u32
    const frameCount: nat

    /** One dynamic buffer of matrices per frame in flight. */
    var uniformBuffers: seq<VulkanDynamicBuffer>
    /** `poolSize.descriptorCount` and `poolInfo.maxSets` of the pool. */
    var poolDescriptorCount: nat
    var poolMaxSets: nat
    var poolDestroyed: bool
    /** What each allocated descriptor set has been written to point at. */
    var descriptorSets: seq<Option<BufferInfo>>

    /** The per-instance stride shared by every frame's buffer. */
    function Stride(): nat
      requires AlignmentInputsOk(Mat4Size, minAlignment)
    {
      AlignUp(Mat4Size, minAlignment)
    }

    /** The owned `VulkanBuffer` objects. */
    ghost function BufferObjects(): set<object>
      reads this
    {
      (set db | db in uniformBuffers :: db.buffer) + (set db | db in uniformBuffers :: db.buffer.memory)
    }

    /** Frame `i`'s buffer holds `maxObjects` matrices with the device's
        alignment, and no two frames share a buffer. */
    ghost predicate BuffersValid()
      reads this, set db | db in uniformBuffers :: db.buffer
    {
      && AlignmentInputsOk(Mat4Size, minAlignment)
      && |uniformBuffers| == frameCount
      && (forall i :: 0 <= i < frameCount ==>
            && uniformBuffers[i].Valid()
            && uniformBuffers[i].recordSize == Mat4Size
            && uniformBuffers[i].minAlignment == minAlignment
            && uniformBuffers[i].maxInstances == maxObjects)
      && (forall i, j :: 0 <= i < j < frameCount ==>
            && uniformBuffers[i].buffer != uniformBuffers[j].buffer
            && uniformBuffers[i].buffer.memory != uniformBuffers[j].buffer.memory)
    }

    /** Pool and sets are sized for `frameCount`, and set `i` points at the
        whole of frame `i`'s buffer from offset 0. */
    ghost predicate Valid()
      reads this, set db | db in uniformBuffers :: db.buffer
    {
      && BuffersValid()
      && poolDescriptorCount == frameCount && poolMaxSets == frameCount
      && |descriptorSets| == frameCount
      && (forall i :: 0 <= i < frameCount ==>
            descriptorSets[i] == Some(BufferInfo(uniformBuffers[i].buffer, 0, WholeSize)))
    }

    constructor (minAlignment: nat, maxObjects: u32, frameCount: nat, pipeline: PipelineHandles)
      requires AlignmentInputsOk(Mat4Size, minAlignment)
      ensures Valid() && !poolDestroyed
      ensures this.minAlignment == minAlignment && this.maxObjects == maxObjects
      ensures this.frameCount == frameCount && this.pipeline == pipeline
      ensures fresh(BufferObjects())
    {
      this.pipeline := pipeline;
      this.minAlignment := minAlignment;
      this.maxObjects := maxObjects;
      this.frameCount := frameCount;
      uniformBuffers := [];
      descriptorSets := [];
      poolDescriptorCount, poolMaxSets, poolDestroyed := 0, 0, false;
      new;
      InitBuffers();
      InitDescriptors();
    }

    /** Creates `frameCount` dynamic buffers, each of capacity `maxObjects`. */
    method InitBuffers()
      requires AlignmentInputsOk(Mat4Size, minAlignment)
      modifies this`uniformBuffers
      ensures BuffersValid() && fresh(BufferObjects())
    {
      var created: seq<VulkanDynamicBuffer> := [];
      while |created| < frameCount
        invariant |created| <= frameCount
        invariant forall i :: 0 <= i < |created| ==>
          && created[i].Valid()
          && created[i].recordSize == Mat4Size
          && created[i].minAlignment == minAlignment
          && created[i].maxInstances == maxObjects
          && fresh(created[i].buffer) && fresh(created[i].buffer.memory)
        invariant forall i, j :: 0 <= i < j < |created| ==>
          && created[i].buffer != created[j].buffer
          && created[i].buffer.memory != created[j].buffer.memory
      {
        var uniforms := new VulkanDynamicBuffer(minAlignment, Mat4Size, maxObjects);
        created := created + [uniforms];
      }
      uniformBuffers := created;
    }

    /** Creates a pool for `frameCount` dynamic uniform descriptors and
        sets, allocates `frameCount` sets, and points set `i` at the whole
        of frame `i`'s buffer. */
    method InitDescriptors()
      requires BuffersValid()
      modifies this`poolDescriptorCount, this`poolMaxSets, this`descriptorSets
      ensures Valid()
    {
      poolDescriptorCount := frameCount;
      poolMaxSets := frameCount;
      descriptorSets := seq(frameCount, _ => None);
      for i := 0 to frameCount
        invariant poolDescriptorCount == frameCount && poolMaxSets == frameCount
        invariant |descriptorSets| == frameCount
        invariant forall k :: 0 <= k < i ==>
          descriptorSets[k] == Some(BufferInfo(uniformBuffers[k].buffer, 0, WholeSize))
      {
        var target := uniformBuffers[i].GetBuffer();
        descriptorSets := descriptorSets[i := Some(BufferInfo(target, 0, WholeSize))];
      }
    }

    /** Binds the pipeline once, then for each draw-list element in order:
        writes its matrix into the current frame's buffer at its instance
        index and records the descriptor-set bind at `stride * index`, the
        vertex and index buffer binds and the indexed draw. */
    method Draw(frame: RenderFrame, drawList: seq<DrawItem>)
      requires Valid()
      requires frame.currentFrameIndex < frameCount
      requires DrawableIn(drawList, maxObjects, Mat4Size)
      modifies frame.commandBuffer
      modifies uniformBuffers[frame.currentFrameIndex].buffer
      modifies uniformBuffers[frame.currentFrameIndex].buffer.memory
      ensures Valid()
      ensures frame.commandBuffer.commands
           == old(frame.commandBuffer.commands) + [BindPipeline(pipeline.pipeline)]
              + DrawCommands(pipeline.layout, frame.currentFrameIndex, Stride(), drawList)
      ensures uniformBuffers[frame.currentFrameIndex].buffer.Bytes()
           == WritesApplied(old(uniformBuffers[frame.currentFrameIndex].buffer.Bytes()),
                            Stride(), Mat4Size, maxObjects, drawList)
      ensures forall j :: 0 <= j < frameCount && j != frame.currentFrameIndex ==>
                uniformBuffers[j].buffer.Bytes() == old(uniformBuffers[j].buffer.Bytes())
    {
      var f := frame.currentFrameIndex;
      var cmd := frame.commandBuffer;
      var uniforms := uniformBuffers[f];
      ghost var before := uniforms.buffer.Bytes();
      cmd.Record(BindPipeline(pipeline.pipeline));
      for i := 0 to |drawList|
        invariant uniforms.Valid()
        invariant cmd.commands == old(cmd.commands) + [BindPipeline(pipeline.pipeline)]
                                  + DrawCommands(pipeline.layout, f, Stride(), drawList[..i])
        invariant DrawableIn(drawList[..i], maxObjects, Mat4Size)
        invariant uniforms.buffer.Bytes() == WritesApplied(before, Stride(), Mat4Size, maxObjects, drawList[..i])
      {
        assert drawList[..i + 1][..i] == drawList[..i] && drawList[..i + 1][i] == drawList[i];
        RecordItem(cmd, uniforms, f, drawList[i]);
      }
      assert drawList[..|drawList|] == drawList;
    }

    /** One iteration of the draw loop: the element's matrix goes to its
        instance of `uniforms`, and its four commands are recorded. */
    method RecordItem(cmd: CommandBuffer, uniforms: VulkanDynamicBuffer, f: nat, item: DrawItem)
      requires uniforms.Valid() && uniforms.recordSize == Mat4Size
      requires uniforms.minAlignment == minAlignment && uniforms.maxInstances == maxObjects
      requires item.descriptorIndex < maxObjects && |item.mvp| == Mat4Size
      modifies cmd, uniforms.buffer, uniforms.buffer.memory
      ensures uniforms.Valid()
      ensures SlotOffset(Stride(), item.descriptorIndex) + Mat4Size <= uniforms.buffer.size
      ensures cmd.commands == old(cmd.commands) + ItemCommands(pipeline.layout, f, Stride(), item)
      ensures uniforms.buffer.Bytes()
           == Splice(old(uniforms.buffer.Bytes()), SlotOffset(Stride(), item.descriptorIndex), item.mvp)
    {
      uniforms.Update(item.descriptorIndex, item.mvp);
      var stride := uniforms.GetDynamicAlignment();
      var dynamicOffset := ToU32(stride * item.descriptorIndex);
      cmd.Record(BindDescriptorSets(pipeline.layout, f, dynamicOffset));
      cmd.Record(BindVertexBuffers(item.vertexBuffer, 0));
      cmd.Record(BindIndexBuffer(item.indexBuffer, 0));
      cmd.Record(DrawIndexed(ToU32(item.indexCount), 1));
    }

    /** The destructor: deletes every frame's buffer, empties the vector
        and destroys the descriptor pool. */
    method Destroy()
      requires BuffersValid()
      modifies this`uniformBuffers, this`poolDestroyed
      modifies set db | db in uniformBuffers :: db.buffer
      ensures uniformBuffers == [] && poolDestroyed
      ensures forall db :: db in old(uniformBuffers) ==> db.buffer.destroyed
    {
      var buffers := uniformBuffers;
      for i := 0 to |buffers|
        invariant forall k :: 0 <= k < i ==> buffers[k].buffer.destroyed
      {
        buffers[i].Destroy();
      }
      uniformBuffers := [];
      poolDestroyed := true;
    }
  }
}
