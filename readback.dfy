/**
 * Texture readback: the GPU copies each texture row into a linear buffer
 * whose row pitch (stride) is padded up to a multiple of 256 bytes; the
 * host then copies the first `width * 4` bytes of every row into a tightly
 * packed RGBA buffer, top row first.
 *
 * The mapped buffer is an input here (its contents come from the GPU copy);
 * the device, the copy command and the wait for the mapping are not part of
 * this model.
 */
module Readback {

  newtype u8 = b: int | 0 <= b < 256

  /** The row-pitch alignment a texture-to-buffer copy demands, in bytes. */
  const RowAlignment: nat := 256

  /** One more than the largest `u32`: the source computes sizes and offsets in `u32`. */
  const U32Limit: nat := 0x1_0000_0000

  /** `n.next_multiple_of(m)`: `n` rounded up to the next multiple of `m`, by less than `m`. */
  function NextMultipleOf(n: nat, m: nat): (r: nat)
    requires m > 0
    ensures r % m == 0
    ensures n <= r < n + m
    ensures r == n <==> n % m == 0
  {
    var rem := n % m;
    RoundUpIsMultiple(n, m);
    if rem == 0 then n else n + (m - rem)
  }

  /** Adding `m - n % m` to `n` reaches a multiple of `m`. */
  lemma RoundUpIsMultiple(n: nat, m: nat)
    requires m > 0
    ensures (n + (m - n % m)) % m == 0
  {
    var q, rem := n / m, n % m;
    assert n == q * m + rem;
    assert n + (m - rem) == (q + 1) * m;
    MulMod(q + 1, m);
  }

  /** A multiple of `m` leaves no remainder. */
  lemma MulMod(k: int, m: nat)
    requires m > 0
    ensures (k * m) % m == 0
  {
    var d, s := (k * m) / m, (k * m) % m;
    assert k * m == d * m + s;
    assert (k - d) * m == s;
    if k - d >= 1 {
      assert (k - d) * m == (k - d - 1) * m + m;
    } else if k - d <= -1 {
      assert (k - d) * m == (k - d + 1) * m - m;
    }
  }

  /** The padded row pitch of the readback buffer for a texture `width` pixels wide. */
  function Stride(width: nat): (s: nat)
    ensures s % RowAlignment == 0
    ensures width * 4 <= s && s - width * 4 < RowAlignment
    ensures s == width * 4 <==> (width * 4) % RowAlignment == 0
  {
    NextMultipleOf(width * 4, RowAlignment)
  }

  /** The byte offset of column `col` of row `row` in a buffer of `rows` rows of `pitch` bytes. */
  function Offset(row: nat, col: nat, pitch: nat, rows: nat): (k: nat)
    requires row < rows && col < pitch
    ensures k < rows * pitch
    ensures k - col + pitch <= rows * pitch
  {
    RowInside(row, rows, pitch);
    row * pitch + col
  }

  /** Row `row` of a buffer of `rows` rows of `pitch` bytes ends inside the buffer. */
  lemma {:induction false} RowInside(row: nat, rows: nat, pitch: nat)
    requires row < rows
    ensures row * pitch + pitch <= rows * pitch
  {
    if row + 1 < rows {
      RowInside(row, rows - 1, pitch);
      assert rows * pitch == (rows - 1) * pitch + pitch;
    } else {
      assert rows * pitch == row * pitch + pitch;
    }
  }

  /**
   * `bytes` is the tight packing of the padded buffer `data`: it holds
   * `width * height * 4` bytes, and byte `c` of row `r` is byte `c` of
   * row `r` of `data`, for every row and every column `c < width * 4`.
   */
  ghost predicate IsPacked(bytes: seq<u8>, data: seq<u8>, width: nat, height: nat)
    requires |data| == Stride(width) * height
  {
    |bytes| == width * height * 4 &&
    forall r, c :: 0 <= r < height && 0 <= c < width * 4 ==>
      bytes[Offset(r, c, width * 4, height)] == data[Offset(r, c, Stride(width), height)]
  }

  /** Every slice the row loop reads lies inside the `stride * height` buffer. */
  lemma ReadSliceInBuffer(width: nat, height: nat, row: nat)
    requires row < height
    ensures row * Stride(width) + width * 4 <= Stride(width) * height
  {
    RowInside(row, height, Stride(width));
  }

  /**
   * The first `rows` rows of `bytes`, packed at `rowBytes` bytes a row, are
   * the first `rowBytes` bytes of the same rows of `data`, whose pitch is `stride`.
   */
  ghost predicate RowsCopied(bytes: seq<u8>, data: seq<u8>, rowBytes: nat, stride: nat, height: nat, rows: nat)
    requires rows <= height && rowBytes <= stride && |data| == stride * height
    requires |bytes| == rows * rowBytes
  {
    forall r, c :: 0 <= r < rows && 0 <= c < rowBytes ==>
      bytes[Offset(r, c, rowBytes, rows)] == data[Offset(r, c, stride, height)]
  }

  /** Appending the first `rowBytes` bytes of row `row` of `data` extends a packing of the rows before it by that row. */
  lemma AppendRow(bytes: seq<u8>, data: seq<u8>, rowBytes: nat, stride: nat, height: nat, row: nat)
    requires row < height && rowBytes <= stride && |data| == stride * height
    requires |bytes| == row * rowBytes && RowsCopied(bytes, data, rowBytes, stride, height, row)
    ensures row * stride + rowBytes <= |data|
    ensures |bytes + data[row * stride..row * stride + rowBytes]| == (row + 1) * rowBytes
    ensures RowsCopied(bytes + data[row * stride..row * stride + rowBytes], data, rowBytes, stride, height, row + 1)
  {
    RowInside(row, height, stride);
    var next := bytes + data[row * stride..row * stride + rowBytes];
    assert |next| == (row + 1) * rowBytes;
    forall r, c | 0 <= r < row + 1 && 0 <= c < rowBytes
      ensures next[Offset(r, c, rowBytes, row + 1)] == data[Offset(r, c, stride, height)]
    {
      if r < row {
        assert Offset(r, c, rowBytes, row + 1) == Offset(r, c, rowBytes, row);
      } else {
        assert Offset(r, c, rowBytes, row + 1) == |bytes| + c;
      }
    }
  }

  /**
   * The row loop of the readback: for each row, append the `width * 4`
   * bytes starting at `row * stride`, skipping the row's padding.
   */
  method Pack(data: seq<u8>, width: nat, height: nat) returns (bytes: seq<u8>)
    requires Stride(width) < U32Limit && Stride(width) * height < U32Limit
    requires |data| == Stride(width) * height
    ensures IsPacked(bytes, data, width, height)
  {
    var stride := Stride(width);
    var rowBytes := width * 4;
    bytes := [];
    for row := 0 to height
      invariant |bytes| == row * rowBytes
      invariant RowsCopied(bytes, data, rowBytes, stride, height, row)
    {
      var start := row * stride;
      AppendRow(bytes, data, rowBytes, stride, height, row);
      bytes := bytes + data[start..start + rowBytes];
    }
    AllRowsCopied(bytes, data, width, height);
  }

  /** Once every row is copied, the output is the packing of the buffer. */
  lemma AllRowsCopied(bytes: seq<u8>, data: seq<u8>, width: nat, height: nat)
    requires |data| == Stride(width) * height && |bytes| == height * (width * 4)
    requires RowsCopied(bytes, data, width * 4, Stride(width), height, height)
    ensures IsPacked(bytes, data, width, height)
  {
    assert height * (width * 4) == width * height * 4;
  }

  /** Every index of a buffer of `rows` rows of `pitch` bytes is the offset of some row and column. */
  lemma {:induction false} DecomposeIndex(i: nat, pitch: nat, rows: nat) returns (r: nat, c: nat)
    requires i < rows * pitch
    ensures r < rows && c < pitch && Offset(r, c, pitch, rows) == i
  {
    assert rows > 0 && rows * pitch == (rows - 1) * pitch + pitch;
    if i < (rows - 1) * pitch {
      r, c := DecomposeIndex(i, pitch, rows - 1);
    } else {
      r, c := rows - 1, i - (rows - 1) * pitch;
    }
  }

  /** The packed output is determined by the buffer: two packings of the same buffer are equal. */
  lemma PackedIsUnique(b1: seq<u8>, b2: seq<u8>, data: seq<u8>, width: nat, height: nat)
    requires |data| == Stride(width) * height
    requires IsPacked(b1, data, width, height) && IsPacked(b2, data, width, height)
    ensures b1 == b2
  {
    forall i | 0 <= i < |b1|
      ensures b1[i] == b2[i]
    {
      var r, c := DecomposeIndex(i, width * 4, height);
      assert b1[Offset(r, c, width * 4, height)] == b2[Offset(r, c, width * 4, height)];
    }
  }

  /** When rows need no padding the stride is the row size and the packed output is the whole buffer. */
  lemma NoPaddingIsIdentity(bytes: seq<u8>, data: seq<u8>, width: nat, height: nat)
    requires (width * 4) % RowAlignment == 0
    requires |data| == Stride(width) * height
    requires IsPacked(bytes, data, width, height)
    ensures Stride(width) == width * 4
    ensures bytes == data
  {
    forall i | 0 <= i < |bytes|
      ensures bytes[i] == data[i]
    {
      var r, c := DecomposeIndex(i, width * 4, height);
      assert bytes[Offset(r, c, width * 4, height)] == data[Offset(r, c, Stride(width), height)];
    }
  }

  /** The board texture is 2176 pixels wide: its 8704-byte rows are already 256-aligned, and all sizes fit in `u32`. */
  lemma BoardRowsNeedNoPadding()
    ensures Stride(2176) == 2176 * 4 == 34 * RowAlignment
    ensures Stride(2176) * 2176 < U32Limit
  {
  }

  /** A 64-pixel-wide texture has 256-byte rows: stride and row size coincide. */
  lemma SixtyFourPixelRows()
    ensures Stride(64) == 256
  {
  }
}
