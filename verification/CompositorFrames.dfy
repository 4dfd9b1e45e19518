/** Which buffers the compositor hands to RGA (gst/rockchiprga/gstrgacompositor.c:395-511). */
module CompositorFrames {
  import opened MachineWords
  import opened Options

  datatype Format = Nv12 | Bgra

  /** A buffer's layout: video meta where there is one, the negotiated info otherwise. */
  datatype Layout = Layout(format: Format, width: nat, height: nat, planes: nat,
                           offset0: nat, stride0: int, offset1: nat, stride1: int)

  datatype Memory = Memory(count: nat, dmabuf: bool, offset: nat, fd: int)

  /** `meta` is the buffer's own layout, `info` the negotiated one. */
  datatype Buffer = Buffer(meta: Option<Layout>, info: Layout, size: nat, memory: Memory)

  /** GstRgaCompositorFrame; `hstride` is a 32-bit word. */
  datatype Frame = Frame(format: Format, fd: int, width: nat, height: nat, wstride: nat, hstride: nat)

  function Planes(format: Format): nat { if format.Nv12? then 2 else 1 }

  /** Machine ranges: sizes and offsets are 64-bit, dimensions and strides 32-bit. */
  predicate Words(l: Layout) {
    l.width < U32 && l.height < U32 && l.offset0 < U64 && l.offset1 < U64
    && -0x8000_0000 <= l.stride0 <= 0x7FFF_FFFF && -0x8000_0000 <= l.stride1 <= 0x7FFF_FFFF
  }

  predicate BufferWords(b: Buffer) {
    Words(b.info) && (b.meta.Some? ==> Words(b.meta.value)) && b.size < U64
  }

  /** The layout the element goes by. */
  function Effective(b: Buffer): Layout { if b.meta.Some? then b.meta.value else b.info }

  /** The meta, if any, describes the picture that was negotiated. */
  predicate Consistent(b: Buffer, format: Format) {
    && b.info.format == format
    && (b.meta.Some? ==>
          && b.meta.value.format == format && b.meta.value.planes == Planes(format)
          && b.meta.value.width == b.info.width && b.meta.value.height == b.info.height)
  }

  /** One DMA-BUF, from its start, that can be imported. */
  predicate Importable(m: Memory) {
    m.count == 1 && m.dmabuf && m.offset == 0 && m.fd >= 0
  }

  /** How many rows of the stride come before the chroma plane, as the 32-bit word the element keeps. */
  function Rows(l: Layout): nat
    requires l.stride0 > 0
  {
    l.offset1 / l.stride0 % U32
  }

  /** NV12 as RGA takes it: even dimensions, one stride, a whole even number of rows before the chroma plane, and
      a buffer that holds both planes. */
  predicate LinearNv12(l: Layout, size: nat) {
    && l.width > 0 && l.height > 0 && l.width % 2 == 0 && l.height % 2 == 0
    && l.offset0 == 0 && l.stride0 > 0 && l.stride1 == l.stride0 && l.stride0 >= l.width
    && l.offset1 > 0 && l.offset1 % l.stride0 == 0
    && Rows(l) >= l.height && Rows(l) % 2 == 0
    && l.offset1 + l.stride0 * (Rows(l) / 2) <= size
  }

  /** BGRA as RGA takes it: whole pixels per line and a buffer that holds all lines. */
  predicate LinearBgra(l: Layout, size: nat) {
    && l.width > 0 && l.height > 0 && l.offset0 == 0 && l.stride0 > 0 && l.stride0 % 4 == 0
    && l.stride0 / 4 >= l.width && l.stride0 * l.height <= size
  }

  predicate Linear(l: Layout, format: Format, size: nat) {
    if format.Nv12? then LinearNv12(l, size) else LinearBgra(l, size)
  }

  function FrameOf(l: Layout, format: Format, fd: int): Frame
    requires l.stride0 > 0
  {
    if format.Nv12? then Frame(format, fd, l.width, l.height, l.stride0, Rows(l))
    else Frame(format, fd, l.width, l.height, l.stride0 / 4, l.height)
  }

  // ---- the sizes fit their words

  lemma Fits(x: nat)
    requires x < U64
    ensures x % U64 == x
  {}

  /** The NV12 size: computed without overflow, or rejected for one that no buffer could hold. */
  method Nv12Size(offset: nat, wstride: nat, rows: nat) returns (required: Option<nat>)
    requires offset < U64 && 0 < wstride
    ensures required == if offset + wstride * rows < U64 then Some(offset + wstride * rows) else None
  {
    Division(rows, wstride, U64 - 1 - offset);
    if rows > (U64 - 1 - offset) / wstride { return None; }
    Fits(wstride * rows);
    Fits(offset + wstride * rows);
    required := Some((offset + wstride * rows % U64) % U64);
  }

  method BgraSize(stride: nat, height: nat) returns (required: Option<nat>)
    requires stride > 0
    ensures required == if stride * height < U64 then Some(stride * height) else None
  {
    Division(height, stride, U64 - 1);
    if height > (U64 - 1) / stride { return None; }
    Fits(stride * height);
    required := Some(stride * height % U64);
  }

  /** The layout part of gst_rga_compositor_frame_from_buffer, on machine words. */
  method CheckLayout(l: Layout, format: Format, size: nat, fd: int) returns (frame: Option<Frame>)
    requires Words(l) && size < U64
    ensures frame.Some? <==> Linear(l, format, size)
    ensures frame.Some? ==> frame.value == FrameOf(l, format, fd)
  {
    if l.width == 0 || l.height == 0 || l.offset0 != 0 || l.stride0 <= 0 { return None; }
    var required;
    if format.Nv12? {
      if l.width % 2 != 0 || l.height % 2 != 0 || l.stride1 != l.stride0 || l.stride0 < l.width || l.offset1 == 0
         || l.offset1 % l.stride0 != 0 { return None; }
      var hstride := l.offset1 / l.stride0 % U32;
      if hstride < l.height || hstride % 2 != 0 { return None; }
      required := Nv12Size(l.offset1, l.stride0, hstride / 2);
      frame := Some(Frame(format, fd, l.width, l.height, l.stride0, hstride));
    } else {
      if l.stride0 % 4 != 0 || l.stride0 / 4 < l.width { return None; }
      required := BgraSize(l.stride0, l.height);
      frame := Some(Frame(format, fd, l.width, l.height, l.stride0 / 4, l.height));
    }
    if required.None? || size < required.value { return None; }
  }

  /** gst_rga_compositor_frame_from_buffer. */
  method FrameFromBuffer(b: Buffer, format: Format) returns (frame: Option<Frame>)
    requires BufferWords(b)
    ensures frame.Some? <==>
              Consistent(b, format) && Importable(b.memory) && Linear(Effective(b), format, b.size)
    ensures frame.Some? ==> frame.value == FrameOf(Effective(b), format, b.memory.fd)
  {
    if b.info.format != format { return None; }
    var l := b.info;
    if b.meta.Some? {
      l := b.meta.value;
      if l.format != format || l.width != b.info.width || l.height != b.info.height || l.planes != Planes(format) {
        return None;
      }
    }
    frame := CheckLayout(l, format, b.size, b.memory.fd);
    if frame.None? { return None; }
    if b.memory.count != 1 || !b.memory.dmabuf || b.memory.offset != 0 || b.memory.fd < 0 { return None; }
  }

  // ---- what an accepted frame addresses

  /** Address of a luma sample, of a chroma byte where the buffer keeps it, and where the hardware looks for it. */
  function LumaAt(f: Frame, x: nat, y: nat): nat { y * f.wstride + x }

  function ChromaAt(l: Layout, f: Frame, x: nat, y: nat): nat { l.offset1 + (y * f.wstride + x) }

  function HardwareChromaAt(f: Frame, x: nat, y: nat): nat { f.wstride * f.hstride + (y * f.wstride + x) }

  lemma RowsBelow(y: nat, rows: nat, stride: nat, x: nat)
    requires y < rows && x < stride
    ensures y * stride + x < rows * stride
  {
    assert (y + 1) * stride <= rows * stride;
  }

  lemma Scaled(r: nat, q: nat, stride: nat)
    requires r <= q && stride > 0
    ensures r * stride <= q * stride && (r * stride == q * stride <==> r == q)
  {
    if r < q { assert (r + 1) * stride <= q * stride; }
  }

  lemma WordOf(q: nat)
    ensures q % U32 <= q && (q % U32 == q <==> q < U32)
  {}

  lemma RowBase(l: Layout)
    requires l.stride0 > 0 && l.offset1 % l.stride0 == 0
    ensures Rows(l) * l.stride0 <= l.offset1
    ensures Rows(l) * l.stride0 == l.offset1 <==> l.offset1 / l.stride0 < U32
  {
    var q := l.offset1 / l.stride0;
    assert l.offset1 == q * l.stride0;
    WordOf(q);
    Scaled(Rows(l), q, l.stride0);
  }

  /** Every sample of an accepted NV12 frame lies in the buffer, and the planes do not overlap. */
  lemma Nv12SamplesAreInside(l: Layout, size: nat, fd: int, x: nat, y: nat)
    requires LinearNv12(l, size) && x < l.width
    ensures var f := FrameOf(l, Nv12, fd);
            && (y < l.height ==> LumaAt(f, x, y) < l.offset1)
            && (y < l.height / 2 ==> l.offset1 <= ChromaAt(l, f, x, y) < size && HardwareChromaAt(f, x, y) < size)
  {
    RowBase(l);
    if y < l.height { RowsBelow(y, Rows(l), l.stride0, x); }
    if y < l.height / 2 { RowsBelow(y, Rows(l) / 2, l.stride0, x); }
  }

  /** The hardware finds the chroma plane where the buffer keeps it exactly when the row count before it fits the
      32-bit word it is passed in. */
  /** Not every accepted layout is one the hardware finds: a tall enough gap before the chroma plane loses a bit. */
  lemma HardwareMissesTheChroma(fd: int)
    ensures exists l: Layout, size: nat ::
              && Words(l) && size < U64 && LinearNv12(l, size) && l.offset1 / l.stride0 >= U32
              && HardwareChromaAt(FrameOf(l, Nv12, fd), 0, 0) != ChromaAt(l, FrameOf(l, Nv12, fd), 0, 0)
  {
    var rows := U32 + 2;
    var l := Layout(Nv12, 2, 2, 2, 0, 2, 2 * rows, 2);
    assert l.offset1 / l.stride0 == rows && Rows(l) == 2;
    var size: nat := l.offset1 + 2;
    assert Words(l) && LinearNv12(l, size);
    assert HardwareChromaAt(FrameOf(l, Nv12, fd), 0, 0) == 4 && ChromaAt(l, FrameOf(l, Nv12, fd), 0, 0) == 2 * rows;
  }

  lemma HardwareFindsTheChroma(l: Layout, size: nat, fd: int)
    requires LinearNv12(l, size)
    ensures var f := FrameOf(l, Nv12, fd);
            (forall x: nat, y: nat :: HardwareChromaAt(f, x, y) == ChromaAt(l, f, x, y)) <==>
              l.offset1 / l.stride0 < U32
  {
    RowBase(l);
    var f := FrameOf(l, Nv12, fd);
    assert f.wstride * f.hstride == Rows(l) * l.stride0;
    assert HardwareChromaAt(f, 0, 0) == Rows(l) * l.stride0 && ChromaAt(l, f, 0, 0) == l.offset1;
  }

  /** Every byte of an accepted BGRA frame lies in the buffer. */
  lemma BgraSamplesAreInside(l: Layout, size: nat, fd: int, x: nat, y: nat, c: nat)
    requires LinearBgra(l, size) && x < l.width && y < l.height && c < 4
    ensures var f := FrameOf(l, Bgra, fd); 4 * LumaAt(f, x, y) + c < size
  {
    var w := l.stride0 / 4;
    RowsBelow(y, l.height, w, x);
    assert 4 * (l.height * w) == l.stride0 * l.height;
  }
}
