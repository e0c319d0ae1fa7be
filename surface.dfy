/**
 * The shared pixel surface: a byte buffer plus a metadata snapshot
 * `(buffer_len, width, height)`, shared between every clone of a `Surface`.
 * Pixels are u32 cells stored little endian, four bytes per cell.
 */
module Surfaces {
  import opened Events

  datatype Format = Argb8888 | Xrgb8888

  /** `Format::default()`: the one format every platform must support. */
  function DefaultFormat(): (f: Format)
    ensures f == Argb8888
  {
    Argb8888
  }

  /** `SharedData`: the metadata snapshot swapped as one unit. */
  datatype SharedData = SharedData(bufferLen: nat, width: u32, height: u32)

  /** The cell index `y * width + x`, computed like the source in wrapping u32 arithmetic. */
  function PixelOffset(meta: SharedData, x: u32, y: u32): (offset: u32)
    ensures y * meta.width + x < U32_LIMIT ==> offset == y * meta.width + x
  {
    ((y * meta.width) % U32_LIMIT + x) % U32_LIMIT
  }

  /** The bound `put_u32_pixel` checks: the whole cell lies inside `buffer_len` bytes. */
  predicate PixelInBounds(meta: SharedData, x: u32, y: u32)
  {
    (PixelOffset(meta, x, y) + 1) * 4 <= meta.bufferLen
  }

  function EncodePixel(p: bv32): (bytes: seq<bv8>)
    ensures |bytes| == 4
  {
    [(p & 0xFF) as bv8, ((p >> 8) & 0xFF) as bv8, ((p >> 16) & 0xFF) as bv8, ((p >> 24) & 0xFF) as bv8]
  }

  function DecodePixel(b0: bv8, b1: bv8, b2: bv8, b3: bv8): bv32
  {
    (b0 as bv32) | ((b1 as bv32) << 8) | ((b2 as bv32) << 16) | ((b3 as bv32) << 24)
  }

  lemma DecodeEncode(p: bv32)
    ensures var b := EncodePixel(p); DecodePixel(b[0], b[1], b[2], b[3]) == p
  {
  }

  /** The u32 held by cell `k` of a byte buffer. */
  function CellAt(bytes: seq<bv8>, k: nat): bv32
    requires 4 * k + 4 <= |bytes|
  {
    DecodePixel(bytes[4 * k], bytes[4 * k + 1], bytes[4 * k + 2], bytes[4 * k + 3])
  }

  /** Stores `p` into cell `k`. */
  function WriteCell(bytes: seq<bv8>, k: nat, p: bv32): (r: seq<bv8>)
    requires 4 * k + 4 <= |bytes|
    ensures |r| == |bytes|
    ensures forall i :: 0 <= i < |bytes| && !(4 * k <= i < 4 * k + 4) ==> r[i] == bytes[i]
    ensures CellAt(r, k) == p
  {
    DecodeEncode(p);
    bytes[..4 * k] + EncodePixel(p) + bytes[4 * k + 4..]
  }

  /** The buffer after `put_u32_pixel(x, y, p)`: one cell written, or nothing when out of bounds. */
  function PutPixel(bytes: seq<bv8>, meta: SharedData, x: u32, y: u32, p: bv32): seq<bv8>
    requires |bytes| == meta.bufferLen
  {
    if PixelInBounds(meta, x, y) then WriteCell(bytes, PixelOffset(meta, x, y), p) else bytes
  }

  /**
   * A write changes only the bytes of cell `y * width + x`, and only when that cell
   * fits in `buffer_len`; reading any cell afterwards gives `p` for the written
   * one and the old value for every other.
   */
  lemma PutPixelEffect(bytes: seq<bv8>, meta: SharedData, x: u32, y: u32, p: bv32, k: nat)
    requires |bytes| == meta.bufferLen
    requires 4 * k + 4 <= |bytes|
    ensures |PutPixel(bytes, meta, x, y, p)| == |bytes|
    ensures !PixelInBounds(meta, x, y) ==> PutPixel(bytes, meta, x, y, p) == bytes
    ensures CellAt(PutPixel(bytes, meta, x, y, p), k) ==
            if PixelInBounds(meta, x, y) && k == PixelOffset(meta, x, y) then p else CellAt(bytes, k)
  {
    if PixelInBounds(meta, x, y) && k != PixelOffset(meta, x, y) {
      var r := PutPixel(bytes, meta, x, y, p);
      var off := PixelOffset(meta, x, y);
      assert k < off || k > off;
      assert r[4 * k] == bytes[4 * k] && r[4 * k + 1] == bytes[4 * k + 1];
      assert r[4 * k + 2] == bytes[4 * k + 2] && r[4 * k + 3] == bytes[4 * k + 3];
    }
  }

  /**
   * The bound is the buffer length, not the width: a column past the row's end
   * whose offset still fits addresses the same cell as a column of the next row.
   */
  lemma PutPixelPastRowEnd(meta: SharedData, x: u32, y: u32)
    requires x >= meta.width
    requires y + 1 < U32_LIMIT
    requires y * meta.width + x < U32_LIMIT
    ensures PixelOffset(meta, x, y) == PixelOffset(meta, x - meta.width, y + 1)
    ensures PixelInBounds(meta, x, y) <==> PixelInBounds(meta, x - meta.width, y + 1)
  {
    assert (y + 1) * meta.width + (x - meta.width) == y * meta.width + x;
  }

  /** The offset wraps around in u32: row 65536 of a 65536-wide surface addresses cell 0. */
  lemma PixelOffsetWraps()
    ensures PixelOffset(SharedData(4, 0x1_0000, 0x1_0000), 0, 0x1_0000) == 0
    ensures PixelInBounds(SharedData(4, 0x1_0000, 0x1_0000), 0, 0x1_0000)
  {
  }

  /** The pointer and metadata cell of `Arc<(AtomicPtr<u8>, Atomic<SharedData>)>`. */
  class Shared {
    var ptr: array<bv8>
    var meta: SharedData

    ghost predicate Valid()
      reads this
    {
      ptr.Length == meta.bufferLen
    }

    constructor (ptr: array<bv8>, meta: SharedData)
      requires ptr.Length == meta.bufferLen
      ensures Valid() && this.ptr == ptr && this.meta == meta
    {
      this.ptr := ptr;
      this.meta := meta;
    }
  }

  class Surface {
    const format: Format
    const shared: Shared

    constructor (format: Format, shared: Shared)
      ensures this.format == format && this.shared == shared
    {
      this.format := format;
      this.shared := shared;
    }

    ghost predicate Valid()
      reads this, shared
    {
      shared.Valid()
    }

    /** The bytes currently visible through the surface. */
    ghost function Bytes(): seq<bv8>
      reads this, shared, shared.ptr
    {
      shared.ptr[..]
    }

    function Width(): u32
      reads shared
    {
      shared.meta.width
    }

    function Height(): u32
      reads shared
    {
      shared.meta.height
    }

    /** Both dimensions, taken from one metadata snapshot. */
    function Size(): (size: (u32, u32))
      reads shared
      ensures size == (Width(), Height())
    {
      var snapshot := shared.meta;
      (snapshot.width, snapshot.height)
    }

    /** Writes one pixel through the shared pointer, dropping it when out of bounds. */
    method PutU32Pixel(x: u32, y: u32, pixel: bv32)
      requires Valid()
      modifies shared.ptr
      ensures shared.ptr[..] == PutPixel(old(shared.ptr[..]), shared.meta, x, y, pixel)
    {
      var sizeData := shared.meta;
      var offset := PixelOffset(sizeData, x, y);
      if (offset + 1) * 4 > sizeData.bufferLen {
        return;
      }
      var cell := EncodePixel(pixel);
      var data := shared.ptr;
      data[4 * offset] := cell[0];
      data[4 * offset + 1] := cell[1];
      data[4 * offset + 2] := cell[2];
      data[4 * offset + 3] := cell[3];
      assert data[..] == old(data[..])[..4 * offset] + cell + old(data[..])[4 * offset + 4..];
    }

    /** The mutable byte view: exactly `buffer_len` bytes of the current buffer. */
    method DataMut() returns (data: array<bv8>)
      requires Valid()
      ensures data == shared.ptr
      ensures data.Length == shared.meta.bufferLen
    {
      data := shared.ptr;
    }
  }
}
