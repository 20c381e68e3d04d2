/** Padding removal for NV12 frames (VarjoVSTFrame/utility.hpp).

    A raw frame holds a luma (Y) plane of `height` rows followed by an
    interleaved chroma (UV) plane of `height / 2` rows; every row occupies
    `row_stride` bytes of which only the first `width` carry pixels.
    Removing the padding copies the first `width` bytes of every row, luma
    rows first, into consecutive positions of the output.

    Sizes are written with `Mul`, multiplication defined by repeated
    addition, so that the proofs reason about it by induction; `MulIsProduct`
    ties it to `*`. */
module Nv12 {
  import opened Common

  /** `a * b`, by repeated addition. */
  function Mul(a: nat, b: nat): nat
  {
    if a == 0 then 0 else Mul(a - 1, b) + b
  }

  lemma {:induction false} MulIsProduct(a: nat, b: nat)
    ensures Mul(a, b) == a * b
  {
    if a > 0 {
      MulIsProduct(a - 1, b);
      assert (a - 1) * b + b == a * b;
    }
  }

  lemma {:induction false} MulMono(a: nat, b: nat, c: nat)
    requires a <= b
    ensures Mul(a, c) <= Mul(b, c)
    decreases b - a
  {
    if a < b {
      MulMono(a, b - 1, c);
    }
  }

  lemma {:induction false} MulAdd(a: nat, b: nat, c: nat)
    ensures Mul(a + b, c) == Mul(a, c) + Mul(b, c)
    decreases b
  {
    if b > 0 {
      MulAdd(a, b - 1, c);
    }
  }

  /** A slice of the second part of a concatenation. */
  lemma SliceAfter<T>(a: seq<T>, b: seq<T>, i: nat, j: nat)
    requires i <= j <= |b|
    ensures (a + b)[|a| + i .. |a| + j] == b[i..j]
  {
  }

  /** A slice of the first part of a concatenation. */
  lemma SliceBefore<T>(a: seq<T>, b: seq<T>, i: nat, j: nat)
    requires i <= j <= |a|
    ensures (a + b)[i..j] == a[i..j]
  {
  }

  /** The second part of a concatenation, as a slice of it. */
  lemma SliceLast<T>(a: seq<T>, b: seq<T>)
    ensures (a + b)[|a| .. |a| + |b|] == b
  {
  }

  /** A row inside a plane that sits at `out[lo..hi]` is found at the plane's offset plus the row's. */
  lemma RowOfPlane<T>(out: seq<T>, plane: seq<T>, src: seq<T>, lo: nat, hi: nat, at: nat, width: nat, from: nat)
    requires lo <= hi <= |out| && out[lo..hi] == plane
    requires at + width <= |plane| && from + width <= |src|
    requires plane[at .. at + width] == src[from .. from + width]
    ensures lo + at + width <= |out|
    ensures out[lo + at .. lo + at + width] == src[from .. from + width]
  {
    var row, target := out[lo + at .. lo + at + width], src[from .. from + width];
    forall k | 0 <= k < width
      ensures row[k] == target[k]
    {
      assert row[k] == out[lo..hi][at + k] == plane[at .. at + width][k];
    }
  }

  /** A slice of the middle part of a three-part concatenation. */
  lemma SliceOfMiddle<T>(a: seq<T>, b: seq<T>, c: seq<T>, i: nat, j: nat)
    requires i <= j <= |b|
    ensures ((a + b) + c)[|a| + i .. |a| + j] == b[i..j]
  {
    SliceBefore(a + b, c, |a| + i, |a| + j);
    SliceAfter(a, b, i, j);
  }

  /** Overwriting the `|row|` elements that follow a prefix `a`. */
  lemma Splice<T>(a: seq<T>, row: seq<T>, rest: seq<T>)
    requires |row| <= |rest|
    ensures (a + rest)[..|a|] + row + (a + rest)[|a| + |row| ..] == a + row + rest[|row|..]
  {
    assert (a + rest)[..|a|] == a;
    assert (a + rest)[|a| + |row| ..] == rest[|row|..];
  }

  /** Size of the buffer the returning overload allocates: w*h + (w*h)/2. */
  function TightSize(width: nat, height: nat): nat
  {
    Mul(height, width) + Mul(height, width) / 2
  }

  /** Bytes the two copy loops fill: `height` luma and `height / 2` chroma rows of `width` bytes. */
  function FilledSize(width: nat, height: nat): nat
  {
    Mul(height, width) + Mul(height / 2, width)
  }

  /** Bytes of raw input covered by the two plane spans of the free function. */
  function RawSize(rowStride: nat, height: nat): nat
  {
    Mul(height, rowStride) + Mul(height / 2, rowStride)
  }

  /** The copy loops never fill more than the returning overload allocates,
      and fill all of it exactly when the height is even. */
  lemma FilledWithinTight(width: nat, height: nat)
    ensures FilledSize(width, height) <= TightSize(width, height)
    ensures height % 2 == 0 ==> FilledSize(width, height) == TightSize(width, height)
  {
    var half := height / 2;
    MulAdd(half, half, width);
    MulAdd(half + half, height % 2, width);
    assert height == half + half + height % 2;
  }

  /** `count` rows of `width` bytes, taken `rowStride` bytes apart from `raw`
      starting at offset `base`, placed one after another. */
  function Rows(raw: seq<byte>, base: nat, count: nat, width: nat, rowStride: nat): (r: seq<byte>)
    requires width <= rowStride && base + Mul(count, rowStride) <= |raw|
    ensures |r| == Mul(count, width)
  {
    if count == 0 then []
    else
      var start := base + Mul(count - 1, rowStride);
      Rows(raw, base, count - 1, width, rowStride) + raw[start..start + width]
  }

  /** The bytes the two copy loops produce: every luma row, then every chroma
      row, each cut to `width` bytes. */
  function Unpad(raw: seq<byte>, width: nat, height: nat, rowStride: nat): (r: seq<byte>)
    requires width <= rowStride && RawSize(rowStride, height) <= |raw|
    ensures |r| == FilledSize(width, height)
  {
    Rows(raw, 0, height, width, rowStride) + Rows(raw, Mul(height, rowStride), height / 2, width, rowStride)
  }

  /** The value the returning overload produces: the copied rows in a zeroed
      buffer of `TightSize` bytes. */
  function Normalized(raw: seq<byte>, width: nat, height: nat, rowStride: nat): (r: seq<byte>)
    requires width <= rowStride && RawSize(rowStride, height) <= |raw|
    ensures |r| == TightSize(width, height)
  {
    FilledWithinTight(width, height);
    Unpad(raw, width, height, rowStride) + Zeros(TightSize(width, height) - FilledSize(width, height))
  }

  /** Row `r` of a block of rows is the first `width` bytes of source row `r`. */
  lemma {:induction false} RowsRow(raw: seq<byte>, base: nat, count: nat, width: nat, rowStride: nat, r: nat)
    requires width <= rowStride && base + Mul(count, rowStride) <= |raw|
    requires r < count
    ensures Mul(r, width) + width <= Mul(count, width)
    ensures base + Mul(r, rowStride) + width <= |raw|
    ensures Rows(raw, base, count, width, rowStride)[Mul(r, width) .. Mul(r, width) + width]
         == raw[base + Mul(r, rowStride) .. base + Mul(r, rowStride) + width]
    decreases count
  {
    var prefix := Rows(raw, base, count - 1, width, rowStride);
    var start := base + Mul(count - 1, rowStride);
    var last := raw[start .. start + width];
    var lo := Mul(r, width);
    assert Rows(raw, base, count, width, rowStride) == prefix + last;
    if r < count - 1 {
      RowsRow(raw, base, count - 1, width, rowStride, r);
      SliceBefore(prefix, last, lo, lo + width);
    } else {
      SliceLast(prefix, last);
    }
  }

  /** The first `height * width` bytes of the packed frame are the luma rows
      (row `r` of them is described by `RowsRow`). */
  lemma LumaPlane(raw: seq<byte>, width: nat, height: nat, rowStride: nat)
    requires width <= rowStride && RawSize(rowStride, height) <= |raw|
    ensures Mul(height, width) <= |Normalized(raw, width, height, rowStride)|
    ensures Normalized(raw, width, height, rowStride)[0 .. 0 + Mul(height, width)] == Rows(raw, 0, height, width, rowStride)
  {
    FilledWithinTight(width, height);
    var luma := Rows(raw, 0, height, width, rowStride);
    var chroma := Rows(raw, Mul(height, rowStride), height / 2, width, rowStride);
    var zeros := Zeros(TightSize(width, height) - FilledSize(width, height));
    assert Normalized(raw, width, height, rowStride) == luma + (chroma + zeros);
  }

  /** The chroma rows follow the luma bytes in the packed frame, while in the
      raw frame their plane starts at `height * rowStride`. */
  lemma ChromaPlane(raw: seq<byte>, width: nat, height: nat, rowStride: nat)
    requires width <= rowStride && RawSize(rowStride, height) <= |raw|
    ensures Mul(height, width) + Mul(height / 2, width) <= |Normalized(raw, width, height, rowStride)|
    ensures Normalized(raw, width, height, rowStride)[Mul(height, width) .. Mul(height, width) + Mul(height / 2, width)]
         == Rows(raw, Mul(height, rowStride), height / 2, width, rowStride)
  {
    FilledWithinTight(width, height);
    var luma := Rows(raw, 0, height, width, rowStride);
    var chroma := Rows(raw, Mul(height, rowStride), height / 2, width, rowStride);
    var zeros := Zeros(TightSize(width, height) - FilledSize(width, height));
    assert Normalized(raw, width, height, rowStride) == (luma + chroma) + zeros;
    SliceOfMiddle(luma, chroma, zeros, 0, |chroma|);
  }

  /** Where a block of rows was placed at `out[lo..]`, row `r` of the block
      is found at `lo + r * width`. */
  lemma BlockRow(out: seq<byte>, lo: nat, raw: seq<byte>, base: nat, count: nat, width: nat, rowStride: nat, r: nat)
    requires width <= rowStride && base + Mul(count, rowStride) <= |raw|
    requires lo + Mul(count, width) <= |out|
    requires out[lo .. lo + Mul(count, width)] == Rows(raw, base, count, width, rowStride)
    requires r < count
    ensures lo + Mul(r, width) + width <= |out|
    ensures base + Mul(r, rowStride) + width <= |raw|
    ensures out[lo + Mul(r, width) .. lo + Mul(r, width) + width] == raw[base + Mul(r, rowStride) .. base + Mul(r, rowStride) + width]
  {
    var block := Rows(raw, base, count, width, rowStride);
    RowsRow(raw, base, count, width, rowStride, r);
    RowOfPlane(out, block, raw, lo, lo + Mul(count, width), Mul(r, width), width, base + Mul(r, rowStride));
  }

  /** Without padding the rows are contiguous, so the copied rows are a slice of the input. */
  lemma {:induction false} RowsContiguous(raw: seq<byte>, base: nat, count: nat, width: nat)
    requires base + Mul(count, width) <= |raw|
    ensures Rows(raw, base, count, width, width) == raw[base .. base + Mul(count, width)]
    decreases count
  {
    if count > 0 {
      RowsContiguous(raw, base, count - 1, width);
    }
  }

  /** When `rowStride == width` the packed frame starts with the first
      `FilledSize` input bytes unchanged, and for an even height (where
      `FilledSize` is `TightSize`) so is the whole returned buffer. */
  lemma NoPaddingIsPrefix(raw: seq<byte>, width: nat, height: nat)
    requires RawSize(width, height) <= |raw|
    ensures Unpad(raw, width, height, width) == raw[..FilledSize(width, height)]
    ensures height % 2 == 0 ==> Normalized(raw, width, height, width) == raw[..FilledSize(width, height)]
  {
    var lw := Mul(height, width);
    RowsContiguous(raw, 0, height, width);
    RowsContiguous(raw, lw, height / 2, width);
    FilledWithinTight(width, height);
    assert raw[..FilledSize(width, height)] == raw[0 .. lw] + raw[lw .. FilledSize(width, height)];
  }

  /** Normalising an already tight frame (stride equal to width) reproduces it. */
  lemma NormalizeIdempotent(raw: seq<byte>, width: nat, height: nat, rowStride: nat)
    requires width <= rowStride && RawSize(rowStride, height) <= |raw|
    ensures RawSize(width, height) <= |Normalized(raw, width, height, rowStride)|
    ensures var once := Normalized(raw, width, height, rowStride);
            Normalized(once, width, height, width) == once
  {
    var once := Normalized(raw, width, height, rowStride);
    FilledWithinTight(width, height);
    NoPaddingIsPrefix(once, width, height);
    assert once[..FilledSize(width, height)] == Unpad(raw, width, height, rowStride);
  }

  /** `memcpy(dst + dstOff, src + srcOff, len)`. */
  method CopyBytes(src: seq<byte>, srcOff: nat, dst: array<byte>, dstOff: nat, len: nat)
    requires srcOff + len <= |src| && dstOff + len <= dst.Length
    modifies dst
    ensures dst[..] == old(dst[..])[..dstOff] + src[srcOff .. srcOff + len] + old(dst[..])[dstOff + len ..]
  {
    forall j | 0 <= j < len {
      dst[dstOff + j] := src[srcOff + j];
    }
  }

  /** One iteration of a copy loop extends the copied rows by one row. */
  lemma CopyRowsStep(raw: seq<byte>, srcBase: nat, i: nat, width: nat, rowStride: nat,
                     before: seq<byte>, dstBase: nat, prev: seq<byte>, next: seq<byte>)
    requires width <= rowStride && srcBase + Mul(i + 1, rowStride) <= |raw|
    requires dstBase + Mul(i + 1, width) <= |before| == |prev|
    requires prev == before[..dstBase] + Rows(raw, srcBase, i, width, rowStride) + before[dstBase + Mul(i, width) ..]
    requires next == prev[..dstBase + Mul(i, width)]
                     + raw[srcBase + Mul(i, rowStride) .. srcBase + Mul(i, rowStride) + width]
                     + prev[dstBase + Mul(i, width) + width ..]
    ensures next == before[..dstBase] + Rows(raw, srcBase, i + 1, width, rowStride) + before[dstBase + Mul(i + 1, width) ..]
  {
    var head := before[..dstBase];
    var rows := Rows(raw, srcBase, i, width, rowStride);
    var dst := dstBase + Mul(i, width);
    var row := raw[srcBase + Mul(i, rowStride) .. srcBase + Mul(i, rowStride) + width];
    Splice(head + rows, row, before[dst..]);
    assert before[dst..][width..] == before[dst + width ..];
    assert Rows(raw, srcBase, i + 1, width, rowStride) == rows + row;
    assert (head + rows) + row == head + (rows + row);
  }

  /** The body of a copy loop: row `i` is copied after the `i` rows already in place. */
  method CopyRow(raw: seq<byte>, srcBase: nat, i: nat, out: array<byte>, dstBase: nat, width: nat, rowStride: nat,
                 ghost before: seq<byte>)
    requires width <= rowStride && srcBase + Mul(i + 1, rowStride) <= |raw|
    requires dstBase + Mul(i + 1, width) <= out.Length == |before|
    requires out[..] == before[..dstBase] + Rows(raw, srcBase, i, width, rowStride) + before[dstBase + Mul(i, width) ..]
    modifies out
    ensures out[..] == before[..dstBase] + Rows(raw, srcBase, i + 1, width, rowStride) + before[dstBase + Mul(i + 1, width) ..]
  {
    ghost var prev := out[..];
    CopyBytes(raw, srcBase + Mul(i, rowStride), out, dstBase + Mul(i, width), width);
    CopyRowsStep(raw, srcBase, i, width, rowStride, before, dstBase, prev, out[..]);
  }

  /** One of the two copy loops: `count` rows of `width` bytes, read
      `rowStride` apart from `srcBase`, written back to back from `dstBase`. */
  method CopyRows(raw: seq<byte>, srcBase: nat, count: nat, out: array<byte>, dstBase: nat, width: nat, rowStride: nat)
    requires width <= rowStride && srcBase + Mul(count, rowStride) <= |raw|
    requires dstBase + Mul(count, width) <= out.Length
    modifies out
    ensures out[..] == old(out[..])[..dstBase] + Rows(raw, srcBase, count, width, rowStride)
                       + old(out[..])[dstBase + Mul(count, width) ..]
  {
    ghost var before := out[..];
    var i := 0;
    while i < count
      invariant 0 <= i <= count
      invariant srcBase + Mul(i, rowStride) <= |raw| && dstBase + Mul(i, width) <= out.Length
      invariant out[..] == before[..dstBase] + Rows(raw, srcBase, i, width, rowStride) + before[dstBase + Mul(i, width) ..]
    {
      MulMono(i + 1, count, width);
      MulMono(i + 1, count, rowStride);
      CopyRow(raw, srcBase, i, out, dstBase, width, rowStride, before);
      i := i + 1;
    }
  }

  /** The overload that writes into a caller-provided buffer (utility.hpp:19-48),
      also the member `remove_padding` of the video writer: the first
      `FilledSize` bytes of `out` become the copied rows and the rest of `out`
      is left as it was. */
  method RemovePaddingInto(raw: seq<byte>, out: array<byte>, width: nat, height: nat, rowStride: nat)
    requires width <= rowStride && RawSize(rowStride, height) <= |raw|
    requires FilledSize(width, height) <= out.Length
    modifies out
    ensures out[..] == Unpad(raw, width, height, rowStride) + old(out[..])[FilledSize(width, height)..]
  {
    ghost var before := out[..];
    MulIsProduct(height, rowStride);
    MulIsProduct(height, width);
    // luma plane
    CopyRows(raw, 0, height, out, 0, width, rowStride);
    ghost var afterLuma := out[..];
    // chroma plane, which starts `height * rowStride` bytes into the raw frame
    CopyRows(raw, height * rowStride, height / 2, out, height * width, width, rowStride);
    assert afterLuma[..Mul(height, width)] == Rows(raw, 0, height, width, rowStride);
    assert afterLuma[FilledSize(width, height) ..] == before[FilledSize(width, height)..];
  }

  /** The overload that returns a fresh buffer (utility.hpp:58-67): a zeroed
      buffer of `height * width + (height * width) / 2` bytes filled by
      `RemovePaddingInto`. */
  method RemovePadding(raw: seq<byte>, width: nat, height: nat, rowStride: nat) returns (out: seq<byte>)
    requires width <= rowStride && RawSize(rowStride, height) <= |raw|
    ensures |out| == height * width + (height * width) / 2
    ensures out == Normalized(raw, width, height, rowStride)
  {
    MulIsProduct(height, width);
    var buffer := NewTightBuffer(width, height);
    NormalizeInto(raw, buffer, width, height, rowStride);
    out := buffer[..];
  }

  /** A tight buffer of `TightSize` bytes whose bytes past the copied planes
      are still zero. A buffer allocated zeroed keeps this shape under
      `NormalizeInto`, since the copy loops never write past `FilledSize`. */
  predicate ZeroTail(tight: seq<byte>, width: nat, height: nat)
  {
    && |tight| == TightSize(width, height)
    && FilledSize(width, height) <= |tight|
    && tight[FilledSize(width, height)..] == Zeros(TightSize(width, height) - FilledSize(width, height))
  }

  /** `width * height * 3 / 2`, the size other callers write, is `TightSize`. */
  lemma ThreeHalves(width: nat, height: nat)
    ensures width * height * 3 / 2 == width * height + (width * height) / 2 == TightSize(width, height)
  {
    MulIsProduct(height, width);
    var p := width * height;
    assert p * 3 == p + p + p;
  }

  /** A zeroed buffer of `width * height + (width * height) / 2` bytes. */
  method NewTightBuffer(width: nat, height: nat) returns (tight: array<byte>)
    ensures fresh(tight)
    ensures tight.Length == width * height + (width * height) / 2
    ensures ZeroTail(tight[..], width, height)
  {
    MulIsProduct(height, width);
    FilledWithinTight(width, height);
    tight := new byte[width * height + (width * height) / 2](_ => 0);
    assert tight[..][FilledSize(width, height)..] == Zeros(TightSize(width, height) - FilledSize(width, height));
  }

  /** The free `remove_padding` into a reused zero-tailed tight buffer: the
      buffer then holds exactly what the returning overload produces. */
  method NormalizeInto(raw: seq<byte>, tight: array<byte>, width: nat, height: nat, rowStride: nat)
    requires width <= rowStride && RawSize(rowStride, height) <= |raw|
    requires ZeroTail(tight[..], width, height)
    modifies tight
    ensures tight[..] == Normalized(raw, width, height, rowStride)
    ensures ZeroTail(tight[..], width, height)
  {
    ghost var before := tight[..];
    RemovePaddingInto(raw, tight, width, height, rowStride);
    assert tight[..][FilledSize(width, height)..] == before[FilledSize(width, height)..];
  }
}
