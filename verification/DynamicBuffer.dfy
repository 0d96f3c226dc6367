/** `VulkanDynamicBuffer<T>`: `maxInstances` records of a fixed-size type `T`
    packed into one host-visible uniform buffer, each record starting on a
    multiple of the per-instance stride (`dynamicAlignment`). A record is
    modelled by its object representation: `sizeof(T)` bytes. */
module DynamicBuffer {
  import opened Bytes
  import opened Alignment
  import opened GpuBuffer

  /** Byte offset at which instance `index` is written: `dynamicAlignment * index`. */
  function SlotOffset(stride: nat, index: nat): nat
  {
    stride * index
  }

  /** With a stride of at least the record size, the record of any instance
      below the capacity lies inside a buffer of `stride * capacity` bytes. */
  lemma SlotInBounds(stride: nat, recordSize: nat, index: nat, capacity: nat)
    requires recordSize <= stride && index < capacity
    ensures SlotOffset(stride, index) + recordSize <= stride * capacity
  {
    MulMonotone(index + 1, capacity, stride);
    assert (index + 1) * stride == stride * index + stride;
  }

  /** Records of distinct instances occupy disjoint byte ranges. */
  lemma SlotsDisjoint(stride: nat, recordSize: nat, i: nat, j: nat)
    requires recordSize <= stride && i != j
    ensures SlotOffset(stride, i) + recordSize <= SlotOffset(stride, j)
         || SlotOffset(stride, j) + recordSize <= SlotOffset(stride, i)
  {
    if i < j {
      MulMonotone(i + 1, j, stride);
      assert (i + 1) * stride == stride * i + stride;
    } else {
      MulMonotone(j + 1, i, stride);
      assert (j + 1) * stride == stride * j + stride;
    }
  }

  /** The bytes of instance `index`'s record in a buffer's contents. */
  function SlotBytes(mem: seq<byte>, stride: nat, recordSize: nat, index: nat): (r: seq<byte>)
    requires SlotOffset(stride, index) + recordSize <= |mem|
    ensures |r| == recordSize
  {
    mem[SlotOffset(stride, index)..SlotOffset(stride, index) + recordSize]
  }

  /** Writing a record at instance `i` and reading instance `j` back gives
      the record when `j == i` and the old bytes otherwise: instances do not
      interfere. */
  lemma WriteThenRead(mem: seq<byte>, stride: nat, recordSize: nat, capacity: nat,
                      i: nat, j: nat, value: seq<byte>)
    requires recordSize <= stride && |mem| == stride * capacity
    requires i < capacity && j < capacity && |value| == recordSize
    ensures SlotOffset(stride, i) + recordSize <= |mem| && SlotOffset(stride, j) + recordSize <= |mem|
    ensures SlotBytes(Splice(mem, SlotOffset(stride, i), value), stride, recordSize, j)
         == if i == j then value else SlotBytes(mem, stride, recordSize, j)
  {
    SlotInBounds(stride, recordSize, i, capacity);
    SlotInBounds(stride, recordSize, j, capacity);
    if i != j {
      SlotsDisjoint(stride, recordSize, i, j);
      var after := Splice(mem, SlotOffset(stride, i), value);
      var lo := SlotOffset(stride, j);
      forall k | 0 <= k < recordSize
        ensures SlotBytes(after, stride, recordSize, j)[k] == SlotBytes(mem, stride, recordSize, j)[k]
      {
        assert after[lo + k] == mem[lo + k];
      }
    }
  }

  class VulkanDynamicBuffer {
    /** `sizeof(T)`. */
    const recordSize: nat
    /** The device's `minUniformBufferOffsetAlignment`. */
    const minAlignment: nat
    const maxInstances: u32
    /** The per-instance stride fixed by `findDynamicAlignment`. */
    const dynamicAlignment: nat
    /** The owned buffer of `dynamicAlignment * maxInstances` bytes. */
    const buffer: VulkanBuffer

    ghost predicate Valid()
      reads buffer
    {
      && AlignmentInputsOk(recordSize, minAlignment)
      && dynamicAlignment == AlignUp(recordSize, minAlignment)
      && buffer.Valid()
      && buffer.size == dynamicAlignment * maxInstances
    }

    /** The current record of instance `index`. */
    ghost function Slot(index: nat): (r: seq<byte>)
      requires Valid() && index < maxInstances
      reads buffer, buffer.memory
      ensures |r| == recordSize
    {
      SlotInBounds(dynamicAlignment, recordSize, index, maxInstances);
      SlotBytes(buffer.Bytes(), dynamicAlignment, recordSize, index)
    }

    /** Computes the stride, then allocates `stride * maxInstances` bytes. */
    constructor (minAlignment: nat, recordSize: nat, maxInstances: u32)
      requires AlignmentInputsOk(recordSize, minAlignment)
      ensures Valid()
      ensures this.minAlignment == minAlignment && this.recordSize == recordSize
      ensures this.maxInstances == maxInstances
      ensures fresh(buffer) && fresh(buffer.memory)
      ensures !buffer.mapped && buffer.calls == [] && !buffer.destroyed
    {
      this.minAlignment := minAlignment;
      this.recordSize := recordSize;
      this.maxInstances := maxInstances;
      var stride := AlignUp(recordSize, minAlignment);
      dynamicAlignment := stride;
      buffer := new VulkanBuffer(stride * maxInstances);
    }

    /** Writes `value`'s bytes over instance `index`'s record through the
        buffer's map/copy/flush/unmap update. The index is not checked by
        the source. */
    method Update(index: u32, value: seq<byte>)
      requires Valid() && index < maxInstances && |value| == recordSize
      modifies buffer, buffer.memory
      ensures Valid()
      ensures SlotOffset(dynamicAlignment, index) + recordSize <= buffer.size
      ensures buffer.Bytes() == Splice(old(buffer.Bytes()), SlotOffset(dynamicAlignment, index), value)
      ensures Slot(index) == value
      ensures forall j :: 0 <= j < maxInstances && j != index ==> Slot(j) == old(Slot(j))
      ensures !buffer.mapped && buffer.destroyed == old(buffer.destroyed)
      ensures buffer.calls == old(buffer.calls)
                              + (if old(buffer.mapped) then [] else [MapMemory])
                              + [FlushAllocation(0, buffer.size), UnmapMemory]
    {
      SlotInBounds(dynamicAlignment, recordSize, index, maxInstances);
      assert value[..recordSize] == value;
      buffer.Update(value, recordSize, dynamicAlignment * index);
      forall j | 0 <= j < maxInstances
        ensures Slot(j) == if j == index then value else old(Slot(j))
      {
        WriteThenRead(old(buffer.Bytes()), dynamicAlignment, recordSize, maxInstances, index, j, value);
      }
    }

    /** The stride fixed at construction. */
    method GetDynamicAlignment() returns (r: nat)
      requires Valid()
      ensures r == AlignUp(recordSize, minAlignment)
      ensures r >= recordSize && (minAlignment > 0 ==> r % minAlignment == 0)
    {
      r := dynamicAlignment;
    }

    /** The owned buffer (`getBuffer` returns its handle). */
    method GetBuffer() returns (b: VulkanBuffer)
      ensures b == buffer
    {
      b := buffer;
    }

    /** The destructor: deletes the owned buffer. */
    method Destroy()
      modifies buffer`calls, buffer`destroyed
      ensures buffer.destroyed && buffer.calls == old(buffer.calls) + [DestroyBuffer]
    {
      buffer.Destroy();
    }
  }

  /** 64-byte records on a device whose minimum alignment is 256, capacity 4:
      the stride is 256, writing instance 0 and then instance 1 leaves
      instance 0's record intact, and instance 2 is bound at offset 512. */
  method AlignedRecordsScenario(v0: seq<byte>, v1: seq<byte>)
    returns (stride: nat, readBack: seq<byte>, offset2: nat)
    requires |v0| == 64 && |v1| == 64
    ensures stride == 256 && readBack == v0 && offset2 == 512
  {
    assert IsPowerOfTwo(256) by {
      assert IsPowerOfTwo(1) && IsPowerOfTwo(2) && IsPowerOfTwo(4) && IsPowerOfTwo(8);
      assert IsPowerOfTwo(16) && IsPowerOfTwo(32) && IsPowerOfTwo(64) && IsPowerOfTwo(128);
    }
    var uniforms := new VulkanDynamicBuffer(256, 64, 4);
    stride := uniforms.GetDynamicAlignment();
    SmallRecordStrideIsAlignment(64, 256);
    uniforms.Update(0, v0);
    uniforms.Update(1, v1);
    readBack := uniforms.buffer.memory[SlotOffset(stride, 0)..SlotOffset(stride, 0) + 64];
    assert readBack == uniforms.Slot(0);
    offset2 := SlotOffset(stride, 2);
  }
}
