/**
 * The CPU side of the typed GPU buffer `Buffer<T>` (src/engine/resources/Buffer.hpp).
 *
 * The CPU copy is a sequence of elements; the byte capacity `sizeMax` is fixed at
 * construction. The bodies of BufferBase::upload and BufferBase::download are not
 * part of this model, so each call to them is recorded in a log with the byte count,
 * the offset and, for an upload, the CPU elements its pointer refers to.
 */
module Buffers {

  /** Target of a buffer (BufferType). */
  datatype BufferType = Vertex | Index | Uniform

  /** Update frequency of a buffer (DataUse). */
  datatype DataUse = Static | Dynamic

  /** One call made to BufferBase. */
  datatype Transfer<T> =
    | UploadCall(bytes: nat, from: seq<T>, offset: nat)
    | DownloadCall(bytes: nat, offset: nat)

  /**
   * std::vector::resize: the first min(|s|, n) elements are kept and the vector is
   * padded with value-initialised elements up to n.
   */
  function Resized<T>(s: seq<T>, n: nat, blank: T): (r: seq<T>)
    ensures |r| == n
    ensures forall i :: 0 <= i < n && i < |s| ==> r[i] == s[i]
    ensures forall i :: |s| <= i < n ==> r[i] == blank
  {
    if n <= |s| then s[..n] else s + seq(n - |s|, _ => blank)
  }

  class Buffer<T> {
    /** The CPU data. */
    var data: seq<T>
    /** Buffer size in bytes, fixed at construction. */
    const sizeMax: nat
    const kind: BufferType
    const usage: DataUse
    /** sizeof(T), in bytes. */
    const elementSize: nat
    /** The value-initialised element T() that resizing pads with. */
    const blank: T
    /** Calls made to BufferBase::upload and BufferBase::download, oldest first. */
    var transfers: seq<Transfer<T>>

    /** Buffer<T>(count, type, usage): count*sizeof(T) bytes, count blank elements. */
    constructor (count: nat, elementSize: nat, blank: T, kind: BufferType, usage: DataUse)
      requires elementSize > 0
      ensures Size() == count && sizeMax == count * elementSize
      ensures this.elementSize == elementSize && this.blank == blank
      ensures this.kind == kind && this.usage == usage
      ensures data == seq(count, _ => blank) && transfers == []
    {
      this.sizeMax := count * elementSize;
      this.kind := kind;
      this.usage := usage;
      this.elementSize := elementSize;
      this.blank := blank;
      this.data := Resized([], count, blank);
      this.transfers := [];
    }

    /** size(): the number of CPU elements. */
    function Size(): nat
      reads this
    {
      |data|
    }

    /** operator[] and at(): element i, with no bounds check, hence the requirement. */
    function At(i: nat): T
      reads this
      requires i < Size()
    {
      data[i]
    }

    /**
     * Writing v through the reference operator[] and at() return: element i becomes v,
     * reads of i give v back and every other element and the size are unchanged.
     */
    method Set(i: nat, v: T)
      requires i < Size()
      modifies this`data
      ensures data == old(data)[i := v]
      ensures Size() == old(Size()) && At(i) == v
      ensures forall j :: 0 <= j < Size() && j != i ==> At(j) == old(At(j))
    {
      data := data[i := v];
    }

    /** upload(): all CPU elements, size()*sizeof(T) bytes, at offset 0. */
    method Upload()
      modifies this`transfers
      ensures transfers == old(transfers) + [UploadCall(Size() * elementSize, data, 0)]
    {
      transfers := transfers + [UploadCall(|data| * elementSize, data, 0)];
    }

    /**
     * upload(offset, count): count*sizeof(T) bytes read from the START of the CPU data,
     * with `offset` passed through unchanged as the offset in the buffer.
     */
    method UploadRange(offset: nat, count: nat)
      modifies this`transfers
      ensures transfers == old(transfers) + [UploadCall(count * elementSize, data, offset)]
    {
      transfers := transfers + [UploadCall(count * elementSize, data, offset)];
    }

    /**
     * download(): the CPU data is first resized to sizeMax/sizeof(T) elements, then that
     * many bytes are requested from offset 0.
     */
    method Download()
      requires elementSize > 0
      modifies this`data, this`transfers
      ensures data == Resized(old(data), sizeMax / elementSize, blank)
      ensures Size() == sizeMax / elementSize
      ensures transfers == old(transfers) + [DownloadCall(Size() * elementSize, 0)]
    {
      data := Resized(data, sizeMax / elementSize, blank);
      transfers := transfers + [DownloadCall(|data| * elementSize, 0)];
    }

    /** clearCPU(): drops the CPU copy; capacity, type and usage are constants. */
    method ClearCPU()
      modifies this`data
      ensures data == [] && Size() == 0
    {
      data := [];
    }

    /** ~Buffer(): clears the CPU copy; the GPU side is left to the base class. */
    method Destroy()
      modifies this`data
      ensures data == []
    {
      ClearCPU();
    }
  }
}
