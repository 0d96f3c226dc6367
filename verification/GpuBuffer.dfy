/** `VulkanBuffer`: one device allocation of a fixed byte size, mapped into
    host memory on demand. The allocation's bytes are an array; the calls the
    class makes into the memory allocator (map, flush, unmap, copy, destroy)
    are recorded in order as abstract events. */
module GpuBuffer {
  import opened Bytes

  /** A call into the memory allocator or the device queue. */
  datatype MemoryCall =
    | MapMemory                                  // vmaMapMemory
    | FlushAllocation(offset: nat, size: nat)    // vmaFlushAllocation
    | UnmapMemory                                // vmaUnmapMemory
    | CopyBuffer(size: nat)                      // one-shot vkCmdCopyBuffer, submitted and waited on
    | DestroyBuffer                              // vmaDestroyBuffer

  class VulkanBuffer {
    /** The byte size given at construction; it never changes. */
    const size: nat
    /** The allocation's bytes, as the host sees them when mapped. */
    const memory: array<byte>
    /** The `mapped` flag. */
    var mapped: bool
    /** Whether `mappedData` is a non-null pointer into the allocation. */
    var mappedPointer: bool
    /** Allocator calls made by this buffer, oldest first. */
    var calls: seq<MemoryCall>
    /** Whether the destructor has released the allocation. */
    var destroyed: bool

    ghost predicate Valid()
      reads this
    {
      memory.Length == size && (mapped <==> mappedPointer)
    }

    /** The current bytes of the allocation. */
    ghost function Bytes(): (s: seq<byte>)
      reads memory
      ensures |s| == memory.Length
    {
      memory[..]
    }

    /** Allocation of `size` bytes; the allocation is assumed to succeed. */
    constructor (size: nat)
      ensures Valid() && this.size == size
      ensures fresh(memory)
      ensures !mapped && calls == [] && !destroyed
    {
      this.size := size;
      memory := new byte[size];
      mapped, mappedPointer := false, false;
      calls := [];
      destroyed := false;
    }

    /** Maps the allocation unless it is already mapped. */
    method Map()
      requires Valid()
      modifies this
      ensures Valid() && mapped
      ensures calls == old(calls) + (if old(mapped) then [] else [MapMemory])
      ensures destroyed == old(destroyed)
    {
      if !mapped && !mappedPointer {
        calls := calls + [MapMemory];
        mappedPointer := true;
        mapped := true;
      }
    }

    /** Unmaps the allocation if it is mapped; otherwise does nothing. */
    method Unmap()
      requires Valid()
      modifies this
      ensures Valid() && !mapped && !mappedPointer
      ensures calls == old(calls) + (if old(mapped) then [UnmapMemory] else [])
      ensures destroyed == old(destroyed)
    {
      if mapped {
        calls := calls + [UnmapMemory];
        mappedPointer := false;
        mapped := false;
      }
    }

    /** Flushes the whole allocation, `[0, size)`. */
    method Flush()
      requires Valid()
      modifies this`calls
      ensures calls == old(calls) + [FlushAllocation(0, size)]
    {
      calls := calls + [FlushAllocation(0, size)];
    }

    /** Copies the first `n` bytes of `data` to `[offset, offset + n)`
        between a map and an unmap, flushing before the unmap. The source
        does not check the range. */
    method Update(data: seq<byte>, n: nat, offset: nat)
      requires Valid()
      requires n <= |data| && offset + n <= size
      modifies this, memory
      ensures Valid() && !mapped && !mappedPointer
      ensures Bytes() == Splice(old(Bytes()), offset, data[..n])
      ensures calls == old(calls)
                       + (if old(mapped) then [] else [MapMemory])
                       + [FlushAllocation(0, size), UnmapMemory]
      ensures destroyed == old(destroyed)
    {
      Map();
      // std::copy of the n bytes into the mapped range
      var k := 0;
      while k < n
        invariant k <= n
        invariant forall j :: 0 <= j < k ==> memory[offset + j] == data[j]
        invariant forall j :: 0 <= j < memory.Length && !(offset <= j < offset + k) ==> memory[j] == old(memory[j])
        modifies memory
      {
        memory[offset + k] := data[k];
        k := k + 1;
      }
      Flush();
      Unmap();
      assert Bytes() == Splice(old(Bytes()), offset, data[..n]);
    }

    /** Device-side copy of `other`'s whole extent to offset 0 of this
        buffer. Only the byte effect of the submitted copy is modelled. */
    method TransferDataFrom(other: VulkanBuffer)
      requires Valid() && other.Valid()
      requires other.size <= size
      modifies memory, this`calls
      ensures Bytes() == Splice(old(Bytes()), 0, old(other.Bytes()))
      ensures calls == old(calls) + [CopyBuffer(other.size)]
    {
      forall k | 0 <= k < other.size {
        memory[k] := other.memory[k];
      }
      calls := calls + [CopyBuffer(other.size)];
    }

    /** The byte size fixed at construction. */
    method GetSize() returns (r: nat)
      ensures r == size
    {
      r := size;
    }

    /** The destructor: releases the allocation. */
    method Destroy()
      modifies this`calls, this`destroyed
      ensures destroyed && calls == old(calls) + [DestroyBuffer]
    {
      calls := calls + [DestroyBuffer];
      destroyed := true;
    }
  }
}
