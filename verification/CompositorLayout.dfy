/** Where the compositor places its two inputs (gst/rockchiprga/gstrgacompositor.c:514-609). */
module CompositorLayout {
  import opened Options

  datatype Layout =
    | PipTopRight
    | PipTopLeft
    | PipBottomRight
    | PipBottomLeft
    | PbpLeftRight
    | PbpTopBottom
    | Custom

  datatype Rectangle = Rectangle(x: int, y: int, width: int, height: int)

  datatype Input = Input(index: nat, config: Rectangle)

  function EvenFloor(value: nat): nat { value - value % 2 }

  predicate Inside(r: Rectangle, width: nat, height: nat) {
    0 <= r.x && 0 <= r.y && 0 < r.width && 0 < r.height && r.x + r.width <= width && r.y + r.height <= height
  }

  predicate Even(r: Rectangle) {
    r.x % 2 == 0 && r.y % 2 == 0 && r.width % 2 == 0 && r.height % 2 == 0
  }

  predicate Pip(layout: Layout) {
    layout.PipTopRight? || layout.PipTopLeft? || layout.PipBottomRight? || layout.PipBottomLeft?
  }

  /** gst_rga_compositor_rectangle_valid. */
  method RectangleValid(r: Rectangle, width: nat, height: nat) returns (ok: bool)
    ensures ok <==> Inside(r, width, height) && Even(r)
  {
    if r.x < 0 || r.y < 0 || r.width <= 0 || r.height <= 0 || r.x + r.width > width || r.y + r.height > height {
      return false;
    }
    if r.x % 2 != 0 || r.y % 2 != 0 || r.width % 2 != 0 || r.height % 2 != 0 { return false; }
    ok := true;
  }

  /** One axis of the output: its size, the even floors of its half and of its 5% margin. */
  datatype Axis = Axis(size: nat, half: nat, margin: nat)

  function AxisOf(size: nat): Axis { Axis(size, EvenFloor(size / 2), EvenFloor(size / 20)) }

  /** The rectangle a preset gives an input, before it is validated. */
  function PresetOn(layout: Layout, index: nat, w: Axis, h: Axis): Rectangle {
    if index == 0 && Pip(layout) then Rectangle(0, 0, w.size, h.size)
    else
      match layout
      case PipTopRight => Rectangle(w.size - w.margin - w.half, h.margin, w.half, h.half)
      case PipTopLeft => Rectangle(w.margin, h.margin, w.half, h.half)
      case PipBottomRight => Rectangle(w.size - w.margin - w.half, h.size - h.margin - h.half, w.half, h.half)
      case PipBottomLeft => Rectangle(w.margin, h.size - h.margin - h.half, w.half, h.half)
      case PbpLeftRight =>
        if index == 0 then Rectangle(0, 0, w.half, h.size) else Rectangle(w.half, 0, w.size - w.half, h.size)
      case PbpTopBottom =>
        if index == 0 then Rectangle(0, 0, w.size, h.half) else Rectangle(0, h.half, w.size, h.size - h.half)
      case Custom => Rectangle(0, 0, 0, 0)
  }

  function Preset(layout: Layout, index: nat, width: nat, height: nat): Rectangle {
    PresetOn(layout, index, AxisOf(width), AxisOf(height))
  }

  function Placed(layout: Layout, input: Input, width: nat, height: nat): Rectangle {
    if layout.Custom? then input.config else Preset(layout, input.index, width, height)
  }

  predicate Accepted(layout: Layout, input: Input, width: nat, height: nat) {
    var r := Placed(layout, input, width, height);
    input.index <= 1 && Inside(r, width, height) && Even(r)
  }

  /** The preset part of gst_rga_compositor_calculate_rectangle. */
  method CalculatePreset(layout: Layout, index: nat, width: nat, height: nat) returns (r: Rectangle)
    requires !layout.Custom?
    ensures r == Preset(layout, index, width, height)
  {
    var halfWidth := EvenFloor(width / 2);
    var halfHeight := EvenFloor(height / 2);
    var marginX := EvenFloor(width / 20);
    var marginY := EvenFloor(height / 20);
    if index == 0 && Pip(layout) {
      return Rectangle(0, 0, width, height);
    }
    match layout
    case PipTopRight =>
      r := Rectangle(width - marginX - halfWidth, marginY, halfWidth, halfHeight);
    case PipTopLeft =>
      r := Rectangle(marginX, marginY, halfWidth, halfHeight);
    case PipBottomRight =>
      r := Rectangle(width - marginX - halfWidth, height - marginY - halfHeight, halfWidth, halfHeight);
    case PipBottomLeft =>
      r := Rectangle(marginX, height - marginY - halfHeight, halfWidth, halfHeight);
    case PbpLeftRight =>
      r := Rectangle(if index == 0 then 0 else halfWidth, 0,
                     if index == 0 then halfWidth else width - halfWidth, height);
    case PbpTopBottom =>
      r := Rectangle(0, if index == 0 then 0 else halfHeight,
                     width, if index == 0 then halfHeight else height - halfHeight);
  }

  /** gst_rga_compositor_calculate_rectangle: what it accepts is even and inside the output. */
  method CalculateRectangle(layout: Layout, input: Input, width: nat, height: nat) returns (rect: Option<Rectangle>)
    ensures rect.Some? <==> Accepted(layout, input, width, height)
    ensures rect.Some? ==> rect.value == Placed(layout, input, width, height)
    ensures rect.Some? ==> Inside(rect.value, width, height) && Even(rect.value)
  {
    if input.index > 1 { return None; }
    var r;
    if layout.Custom? {
      r := input.config;
    } else {
      r := CalculatePreset(layout, input.index, width, height);
    }
    var ok := RectangleValid(r, width, height);
    rect := if ok then Some(r) else None;
  }

  /** The outputs a preset can divide: even, and at least four wide or high where it halves. */
  predicate Divisible(layout: Layout, width: nat, height: nat) {
    && width % 2 == 0 && height % 2 == 0
    && width >= (if layout.PbpTopBottom? then 2 else 4)
    && height >= (if layout.PbpLeftRight? then 2 else 4)
  }

  /** A preset places both inputs exactly on the outputs it can divide; all of them on any even output of 4x4. */
  lemma PresetsFitDivisibleOutputs(layout: Layout, a: Rectangle, b: Rectangle, width: nat, height: nat)
    requires !layout.Custom?
    ensures Accepted(layout, Input(0, a), width, height) && Accepted(layout, Input(1, b), width, height)
            <==> Divisible(layout, width, height)
  {
    AxisIsSound(width);
    AxisIsSound(height);
    OnSoundAxes(layout, AxisOf(width), AxisOf(height));
  }

  /** What the halves and margins of an axis satisfy. */
  predicate Sound(a: Axis) {
    && a.half % 2 == 0 && a.margin % 2 == 0 && a.half + a.margin <= a.size
    && (a.half > 0 <==> a.size >= 4) && (a.size > 0 ==> a.half < a.size)
  }

  lemma EvenFloorIs(value: nat)
    ensures var e := EvenFloor(value);
            e % 2 == 0 && e <= value <= e + 1 && (e > 0 <==> value >= 2)
  {}

  lemma FromFloors(a: Axis, half: nat, margin: nat)
    requires a.half % 2 == 0 && a.half <= half && (a.half > 0 <==> half >= 2)
    requires a.margin % 2 == 0 && a.margin <= margin
    requires 2 * half <= a.size <= 2 * half + 1 && 20 * margin <= a.size
    ensures Sound(a)
  {}

  lemma AxisIsSound(size: nat)
    ensures Sound(AxisOf(size))
  {
    EvenFloorIs(size / 2);
    EvenFloorIs(size / 20);
    FromFloors(AxisOf(size), size / 2, size / 20);
  }

  lemma Parity(size: int, half: int, margin: int)
    requires half % 2 == 0 && margin % 2 == 0
    ensures (size - half) % 2 == 0 <==> size % 2 == 0
    ensures (size - margin - half) % 2 == 0 <==> size % 2 == 0
  {}

  lemma OnSoundAxes(layout: Layout, w: Axis, h: Axis)
    requires !layout.Custom? && Sound(w) && Sound(h)
    ensures var a, b := PresetOn(layout, 0, w, h), PresetOn(layout, 1, w, h);
            Inside(a, w.size, h.size) && Even(a) && Inside(b, w.size, h.size) && Even(b)
            <==> Divisible(layout, w.size, h.size)
  {
    Parity(w.size, w.half, w.margin);
    Parity(h.size, h.half, h.margin);
  }

  predicate Covers(r: Rectangle, x: int, y: int) {
    r.x <= x < r.x + r.width && r.y <= y < r.y + r.height
  }

  /** The two side-by-side presets cut the frame in two: every pixel belongs to exactly one input. */
  lemma SideBySidePartitions(layout: Layout, width: nat, height: nat, x: int, y: int)
    requires layout.PbpLeftRight? || layout.PbpTopBottom?
    ensures var a, b := Preset(layout, 0, width, height), Preset(layout, 1, width, height);
            && (0 <= x < width && 0 <= y < height <==> Covers(a, x, y) || Covers(b, x, y))
            && !(Covers(a, x, y) && Covers(b, x, y))
  {}

  /** A picture-in-picture inset keeps its margin from the two edges it is named after, takes at most a quarter
      of the frame and, on an even output, mirrors to its opposite corner. */
  lemma InsetGeometry(width: nat, height: nat)
    ensures var tl, br := Preset(PipTopLeft, 1, width, height), Preset(PipBottomRight, 1, width, height);
            && tl.width == br.width && tl.height == br.height
            && 2 * tl.width <= width && 2 * tl.height <= height
            && tl.x == width - (br.x + br.width) && tl.y == height - (br.y + br.height)
            && Preset(PipTopRight, 1, width, height) == Rectangle(br.x, tl.y, tl.width, tl.height)
            && Preset(PipBottomLeft, 1, width, height) == Rectangle(tl.x, br.y, tl.width, tl.height)
            && 20 * tl.x <= width && 20 * tl.y <= height
  {}
}
